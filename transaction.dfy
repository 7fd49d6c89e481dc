/**
 * The search data store's read transaction: serves a load from the full-text
 * index when the index can evaluate the whole filter and sort, and otherwise
 * hands the load, untouched, to the wrapped primary-store transaction.
 */
module SearchDataTransactions {
  import opened Wrappers
  import opened Filters
  import opened Annotations
  import opened Sorts
  import opened Paginations
  import opened Lucene
  import opened Eligibility

  /** The caller's request context, passed through to the wrapped store. */
  datatype RequestScope = RequestScope(user: string)

  /** How far a data store supports a kind of query. */
  datatype FeatureSupport = FullSupport | PartialSupport | NoSupport

  /** How a load ended. */
  datatype LoadResult =
      /** The wrapped transaction's `loadObjects` was called with these arguments. */
    | Delegated(entityClass: EntityClass, filterExpression: Option<FilterExpression>, sorting: Option<Sorting>,
                pagination: Option<Pagination>, requestScope: RequestScope)
      /** The index served the load with these entities. */
    | Loaded(objects: seq<Entity>)
      /** The filter could not be translated into a native query (InvalidPredicateException). */
    | InvalidPredicate(message: string)
      /** A sort request without any valid rule left the sort context null (NullPointerException). */
    | NullSortContext

  class SearchDataTransaction {
    const dictionary: EntityDictionary
    const em: FullTextEntityManager

    constructor (dictionary: EntityDictionary, em: FullTextEntityManager)
      ensures this.dictionary == dictionary && this.em == em
    {
      this.dictionary := dictionary;
      this.em := em;
    }

    /**
     * Loads the entities of `entityClass` that match the filter. Without a
     * filter, or when the index cannot evaluate the filter and the requested
     * sort, the wrapped transaction does the load with the same arguments.
     * Otherwise the index does it: the sort and the pagination window are
     * applied to the native query, the total is reported when asked for, and
     * each hit is projected to its entity.
     */
    method LoadObjects(entityClass: EntityClass, filterExpression: Option<FilterExpression>, sorting: Option<Sorting>,
                       pagination: Option<Pagination>, requestScope: RequestScope) returns (r: LoadResult)
      modifies if pagination.Some? then {pagination.value} else {}
      // Routing: the index is used exactly for filtered, eligible loads.
      ensures r.Delegated? <==> filterExpression.None? || !SearchEligible(dictionary, entityClass, filterExpression.value, sorting)
      ensures r.Delegated? ==> r == Delegated(entityClass, filterExpression, sorting, pagination, requestScope)
      ensures r.Delegated? || r.InvalidPredicate? || r.NullSortContext? ==> pagination.Some? ==> unchanged(pagination.value)
      // Search path: translation faults surface, they never fall back.
      ensures filterExpression.Some? && SearchEligible(dictionary, entityClass, filterExpression.value, sorting) ==>
                var translated := em.toLucene(filterExpression.value, entityClass);
                && (translated.Failure? ==> r == InvalidPredicate(translated.error))
                && (translated.Success? && sorting.Some? && |sorting.value.rules| == 0 ==> r == NullSortContext)
                && (translated.Success? && (sorting.Some? ==> |sorting.value.rules| > 0) ==>
                      var hits := SearchHits(dictionary, em, translated.value, entityClass, sorting);
                      && r == Loaded(Window(hits, FirstResult(pagination), MaxResults(pagination)))
                      && (pagination.Some? ==>
                            pagination.value.pageTotals
                            == if pagination.value.generateTotals then |hits| else old(pagination.value.pageTotals)))
    {
      if filterExpression.None? {
        return Delegated(entityClass, filterExpression, sorting, pagination, requestScope);
      }

      var canSearch := CanSearch(filterExpression.value, entityClass);

      if sorting.Some? && canSearch {
        canSearch := CanSort(sorting.value, entityClass);
      }

      if canSearch {
        var translated := em.toLucene(filterExpression.value, entityClass);
        if translated.Failure? {
          return InvalidPredicate(translated.error);
        }

        var fullTextQuery := CreateFullTextQuery(translated.value, entityClass);

        if sorting.Some? {
          if |sorting.value.rules| == 0 {
            return NullSortContext;
          }
          var sort := BuildSort(sorting.value, entityClass);
          fullTextQuery := fullTextQuery.(sort := Some(sort));
        }

        if pagination.Some? {
          fullTextQuery := fullTextQuery.(maxResults := Some(pagination.value.limit));
          fullTextQuery := fullTextQuery.(firstResult := pagination.value.offset);
        }

        fullTextQuery := fullTextQuery.(projection := [This]);
        var results := ResultList(em, fullTextQuery);

        if pagination.Some? && pagination.value.generateTotals {
          pagination.value.SetPageTotals(ResultSize(em, fullTextQuery));
        }

        if |results| == 0 {
          return Loaded([]);
        }

        return Loaded(seq(|results|, k requires 0 <= k < |results| => results[k][0]));
      }

      return Delegated(entityClass, filterExpression, sorting, pagination, requestScope);
    }

    /**
     * Whether the index can sort by every rule: each must name a direct
     * attribute that carries `@SortableField`. Stops at the first rule that
     * does not.
     */
    method CanSort(sorting: Sorting, entityClass: EntityClass) returns (canSort: bool)
      ensures canSort <==> forall i :: 0 <= i < |sorting.rules| ==> RuleSortable(dictionary, entityClass, sorting.rules[i])
    {
      var rules := sorting.rules;
      var i := 0;
      while i < |rules|
        invariant 0 <= i <= |rules|
        invariant forall j :: 0 <= j < i ==> RuleSortable(dictionary, entityClass, rules[j])
      {
        var path := rules[i].path;
        if |path| != 1 {
          return false;
        }
        var fieldName := path[|path| - 1].fieldName;
        if Lookup(dictionary, entityClass, fieldName).sortable.None? {
          return false;
        }
        i := i + 1;
      }
      return true;
    }

    /**
     * Whether the index can evaluate the filter: every extracted predicate
     * must name a direct, indexed attribute. Stops at the first one that
     * does not.
     */
    method CanSearch(expression: FilterExpression, entityClass: EntityClass) returns (canSearch: bool)
      ensures canSearch <==> forall p :: OccursIn(p, expression) ==> PredicateSearchable(dictionary, entityClass, p)
      ensures canSearch == FilterSearchable(dictionary, entityClass, expression)
    {
      var predicates := ExtractPredicates(expression);
      var i := 0;
      while i < |predicates|
        invariant 0 <= i <= |predicates|
        invariant forall j :: 0 <= j < i ==> PredicateSearchable(dictionary, entityClass, predicates[j])
      {
        var p := predicates[i];
        assert p in predicates && OccursIn(p, expression);
        if |p.path| != 1 {
          assert !(forall q :: OccursIn(q, expression) ==> PredicateSearchable(dictionary, entityClass, q));
          return false;
        }
        var indexed := IsIndexed(entityClass, p.Field());
        if !indexed {
          assert !(forall q :: OccursIn(q, expression) ==> PredicateSearchable(dictionary, entityClass, q));
          return false;
        }
        i := i + 1;
      }
      return true;
    }

    /**
     * Whether an attribute is indexed: its `@Field`, or failing that the
     * members of its `@Fields`, are collected, and any with Index.YES makes
     * it indexed.
     */
    method IsIndexed(entityClass: EntityClass, fieldName: string) returns (indexed: bool)
      ensures var a := Lookup(dictionary, entityClass, fieldName);
              indexed <==> if a.field.Some? then a.field.value.index == Yes
                           else a.fields.Some? && exists f :: f in a.fields.value && f.index == Yes
      ensures indexed == FieldIndexed(dictionary, entityClass, fieldName)
    {
      var fields: seq<FieldAnnotation> := [];
      var annotations := Lookup(dictionary, entityClass, fieldName);
      if annotations.field.Some? {
        fields := fields + [annotations.field.value];
      } else if annotations.fields.Some? {
        fields := fields + annotations.fields.value;
      }
      assert fields == CollectedFieldAnnotations(annotations);

      indexed := false;
      var i := 0;
      while i < |fields|
        invariant 0 <= i <= |fields|
        invariant indexed <==> exists j :: 0 <= j < i && fields[j].index == Yes
      {
        if fields[i].index == Yes {
          indexed := true;
        }
        i := i + 1;
      }
      FieldIndexedCases(dictionary, entityClass, fieldName);
    }

    /**
     * The native sort of a sortable, non-empty rule list: one key per rule,
     * in rule order, on the `forField` alias when it is non-empty and on the
     * attribute otherwise, ascending exactly when the rule is.
     */
    method BuildSort(sorting: Sorting, entityClass: EntityClass) returns (sort: Sort)
      requires |sorting.rules| > 0
      requires SortingSortable(dictionary, entityClass, sorting.rules)
      ensures sort.fields == ExpectedSortFields(dictionary, entityClass, sorting.rules)
      ensures |sort.fields| == |sorting.rules|
      ensures forall k :: 0 <= k < |sorting.rules| ==>
                sort.fields[k].field == SortFieldName(dictionary, entityClass, sorting.rules[k])
                && (!sort.fields[k].reverse <==> sorting.rules[k].order == Asc)
    {
      var rules := sorting.rules;
      var context: SortFieldContext? := null;
      var i := 0;
      while i < |rules|
        invariant 0 <= i <= |rules|
        invariant context == null <==> i == 0
        invariant SortingSortable(dictionary, entityClass, rules[..i])
        invariant context != null ==> fresh(context) && context.fields == ExpectedSortFields(dictionary, entityClass, rules[..i])
      {
        var rule := rules[i];
        var fieldName := rule.path[|rule.path| - 1].fieldName;
        var sortableField := Lookup(dictionary, entityClass, fieldName).sortable.value;
        fieldName := if sortableField.forField == "" then fieldName else sortableField.forField;

        if context == null {
          context := new SortFieldContext.ByField(fieldName);
        } else {
          context.AndByField(fieldName);
        }

        if rule.order == Asc {
          context.Asc();
        } else {
          context.Desc();
        }

        assert rules[..i + 1][..i] == rules[..i];
        i := i + 1;
      }
      assert rules[..i] == rules;
      sort := context.CreateSort();
      ExpectedSortFieldsAt(dictionary, entityClass, rules);
    }

    /** Filtering is supported partially: not every filter can use the index. */
    function SupportsFiltering(entityClass: EntityClass, expression: FilterExpression): (support: FeatureSupport)
      ensures support == PartialSupport
    {
      PartialSupport
    }
  }
}
