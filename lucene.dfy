/**
 * The Lucene and Hibernate Search objects the search layer drives: native
 * queries and sorts, the sort-building DSL context, and a full-text query
 * whose execution against the index is an abstract input.
 */
module Lucene {
  import opened Wrappers
  import opened Filters

  /** An entity instance, as the index hands it back. */
  datatype Entity = Entity(entityClass: EntityClass, id: int)

  /** A native Lucene query; its structure is not inspected here. */
  datatype Query = Query(clauses: string)

  /** One key of a native sort: the index field and whether the order is reversed (descending). */
  datatype SortField = SortField(field: string, reverse: bool)

  /** A native multi-field sort; the first key is the primary one. */
  datatype Sort = Sort(fields: seq<SortField>)

  /**
   * The sort DSL's field context. `byField` starts it, `andByField` appends a
   * key, and `asc`/`desc` set the direction of the key added last. The
   * context records every key itself, so calls whose returned context is
   * discarded still take effect.
   */
  class SortFieldContext {
    var fields: seq<SortField>

    /** `sort().byField(field)`: a context holding one key, in natural (ascending) order. */
    constructor ByField(field: string)
      ensures fields == [SortField(field, false)]
    {
      fields := [SortField(field, false)];
    }

    method AndByField(field: string)
      modifies this
      ensures fields == old(fields) + [SortField(field, false)]
    {
      fields := fields + [SortField(field, false)];
    }

    method Asc()
      requires |fields| > 0
      modifies this
      ensures |fields| == |old(fields)|
      ensures fields[..|fields| - 1] == old(fields)[..|fields| - 1]
      ensures fields[|fields| - 1] == SortField(old(fields)[|fields| - 1].field, false)
    {
      fields := fields[..|fields| - 1] + [SortField(fields[|fields| - 1].field, false)];
    }

    method Desc()
      requires |fields| > 0
      modifies this
      ensures |fields| == |old(fields)|
      ensures fields[..|fields| - 1] == old(fields)[..|fields| - 1]
      ensures fields[|fields| - 1] == SortField(old(fields)[|fields| - 1].field, true)
    {
      fields := fields[..|fields| - 1] + [SortField(fields[|fields| - 1].field, true)];
    }

    method CreateSort() returns (sort: Sort)
      ensures sort.fields == fields
    {
      sort := Sort(fields);
    }
  }

  /** A projection column; only the matched entity itself (`THIS`) is used. */
  datatype Projection = This

  /** A full-text query as configured so far. */
  datatype FullTextQuery = FullTextQuery(
    query: Query,
    entityClass: EntityClass,
    sort: Option<Sort>,
    maxResults: Option<nat>,
    firstResult: nat,
    projection: seq<Projection>)

  /**
   * The full-text entity manager's two services: translating an Elide filter
   * into a native query (which may throw IllegalArgumentException, here a
   * Failure carrying its message), and listing every indexed entity of a
   * type that matches a query, in the order the sort asks for.
   */
  datatype FullTextEntityManager = FullTextEntityManager(
    toLucene: (FilterExpression, EntityClass) -> Result<Query, string>,
    matches: (Query, EntityClass, Option<Sort>) -> seq<Entity>)

  /** `createFullTextQuery(query, entityClass)`: no sort, no window, no projection yet. */
  function CreateFullTextQuery(query: Query, entityClass: EntityClass): (q: FullTextQuery)
    ensures q.query == query && q.entityClass == entityClass
    ensures q.sort.None? && q.projection == []
    ensures forall hits :: Window(hits, q.firstResult, q.maxResults) == hits
  {
    FullTextQuery(query, entityClass, None, None, 0, [])
  }

  /** Number of hits left once the first `first` are skipped. */
  function Available(hits: nat, first: nat): nat
  {
    if first < hits then hits - first else 0
  }

  /**
   * The pagination window of a hit list: skip `first` hits, then keep at
   * most `max` of them.
   */
  function Window(hits: seq<Entity>, first: nat, max: Option<nat>): (w: seq<Entity>)
    ensures |w| == if max.Some? && max.value < Available(|hits|, first) then max.value else Available(|hits|, first)
    ensures forall k :: 0 <= k < |w| ==> first + k < |hits| && w[k] == hits[first + k]
  {
    if |hits| <= first then []
    else if max.Some? && first + max.value < |hits| then hits[first..first + max.value]
    else hits[first..]
  }

  /** The hits of `q` in the index, in sort order, before windowing. */
  function AllHits(em: FullTextEntityManager, q: FullTextQuery): seq<Entity>
  {
    em.matches(q.query, q.entityClass, q.sort)
  }

  /** One result row: a column per projection, each the matched entity. */
  function Row(hit: Entity, projection: seq<Projection>): seq<Entity>
  {
    seq(|projection|, _ => hit)
  }

  /** `getResultList()`: one row per hit inside the window. */
  function ResultList(em: FullTextEntityManager, q: FullTextQuery): (rows: seq<seq<Entity>>)
    ensures |rows| == |Window(AllHits(em, q), q.firstResult, q.maxResults)|
    ensures forall k :: 0 <= k < |rows| ==>
              |rows[k]| == |q.projection| && q.firstResult + k < |AllHits(em, q)|
              && forall c :: 0 <= c < |rows[k]| ==> rows[k][c] == AllHits(em, q)[q.firstResult + k]
  {
    var w := Window(AllHits(em, q), q.firstResult, q.maxResults);
    seq(|w|, k requires 0 <= k < |w| => Row(w[k], q.projection))
  }

  /** `getResultSize()`: the number of hits, regardless of the window. */
  function ResultSize(em: FullTextEntityManager, q: FullTextQuery): (size: nat)
    ensures size == |em.matches(q.query, q.entityClass, q.sort)|
    ensures |ResultList(em, q)| <= size
  {
    |AllHits(em, q)|
  }

  /** The total does not depend on the window or the projection: it counts every hit. */
  lemma ResultSizeIgnoresWindow(em: FullTextEntityManager, q: FullTextQuery, first: nat, max: Option<nat>,
                                projection: seq<Projection>)
    ensures ResultSize(em, q.(firstResult := first, maxResults := max, projection := projection)) == ResultSize(em, q)
    ensures |ResultList(em, q.(firstResult := first, maxResults := max, projection := projection))| <= ResultSize(em, q)
  {
  }
}
