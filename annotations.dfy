/**
 * The Hibernate Search annotations the search layer reads, and the entity
 * dictionary that reports them per entity type and field name.
 */
module Annotations {
  import opened Wrappers
  import opened Filters

  /** Whether a `@Field` is written to the index. */
  datatype Index = Yes | No

  /** A `@Field` annotation; only its `index` setting matters here. */
  datatype FieldAnnotation = FieldAnnotation(index: Index)

  /** A `@SortableField` annotation; `forField` names the index field to sort on, "" for the field itself. */
  datatype SortableFieldAnnotation = SortableFieldAnnotation(forField: string)

  /** The annotations one attribute carries; `fields` is the value array of `@Fields`. */
  datatype AttributeAnnotations = AttributeAnnotations(
    field: Option<FieldAnnotation>,
    fields: Option<seq<FieldAnnotation>>,
    sortable: Option<SortableFieldAnnotation>)

  /** An attribute with none of the annotations. */
  const NoAnnotations := AttributeAnnotations(None, None, None)

  /** The entity dictionary's annotation view: entity type to field name to annotations. */
  type EntityDictionary = map<EntityClass, map<string, AttributeAnnotations>>

  /**
   * What the dictionary reports for `fieldName` on `entityClass`; an unknown
   * type or field reports no annotation at all.
   */
  function Lookup(dictionary: EntityDictionary, entityClass: EntityClass, fieldName: string): (a: AttributeAnnotations)
    ensures entityClass !in dictionary || fieldName !in dictionary[entityClass] ==> a == NoAnnotations
    ensures entityClass in dictionary && fieldName in dictionary[entityClass] ==> a == dictionary[entityClass][fieldName]
  {
    if entityClass in dictionary && fieldName in dictionary[entityClass] then dictionary[entityClass][fieldName]
    else NoAnnotations
  }
}
