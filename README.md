# Elide search data store: read-path routing

This project models the read transaction of Elide's search data store
(`SearchDataTransaction`). The transaction wraps a primary-store transaction.
For each `loadObjects` call it decides whether the Lucene full-text index can
serve the whole query:

- If no filter is given, the load goes to the wrapped transaction unchanged.
- If the filter, or the requested sort, uses something the index cannot
  evaluate, the load also goes to the wrapped transaction unchanged.
- Otherwise the filter is translated into a native Lucene query, and the sort
  and the pagination window are applied. If totals were asked for, the total
  hit count is written into the caller's `Pagination`. Each hit is then
  projected to its entity.

Eligibility is fail-closed:

- A filter is eligible only if every predicate in its tree, whatever
  combinator sits above it, names a direct attribute (path of length 1) that
  is indexed.
- An attribute is indexed when its `@Field` has `Index.YES`. Without a
  `@Field`, it is indexed when some member of its `@Fields` has `Index.YES`.
- A sort is eligible only if every rule names a direct attribute that carries
  `@SortableField`.

The native sort has one key per rule, in rule order. Each key uses the
annotation's `forField` alias when that is non-empty, and the rule's
direction.

Modules, one per file:

- `Wrappers` (wrappers.dfy): `Option` and `Result`.
- `Filters` (filters.dfy): paths, predicates, the and/or/not expression tree
  and predicate extraction.
- `Annotations` (annotations.dfy): the Hibernate Search annotations and the
  entity dictionary's per-field view of them.
- `Sorts` (sorts.dfy): sort orders and resolved sort rules.
- `Paginations` (paginations.dfy): the pagination request. It is a class
  because `pageTotals` is written in place.
- `Lucene` (lucene.dfy): native queries and sorts, and the sort DSL's field
  context. That context is a class, because the builder is mutated while the
  rules are walked. The module also has the full-text query value and its
  execution against an index.
- `Eligibility` (eligibility.dfy): the specification. It defines when the
  index can serve a query, and what native sort and hit list result. It also
  holds the lemmas about these rules.
- `SearchDataTransactions` (transaction.dfy): the transaction class. Its
  methods `LoadObjects`, `CanSearch`, `IsIndexed`, `CanSort` and
  `BuildSort` follow the source's loops and early returns. Each is proved
  against the specification.

The Lucene side is abstract. `FullTextEntityManager` has two fields:

- `toLucene`: the filter-to-query translation, which may fail with the
  message of an `IllegalArgumentException`.
- `matches`: the index's ordered hit list for a query, an entity type and a
  sort.

The outcome of a load is a `LoadResult`, one of four cases:

- `Delegated(arguments)`: the wrapped transaction's `loadObjects` was called
  with exactly these arguments.
- `Loaded(entities)`: the index served the load.
- `InvalidPredicate(message)`: translation failed.
- `NullSortContext`: the null dereference at line 219, described below.

## Model

| member | source | states |
|---|---|---|
| SearchDataTransactions.SearchDataTransaction.LoadObjects | elide-datastore/elide-datastore-search/src/main/java/com/yahoo/elide/datastores/search/SearchDataTransaction.java:56-110 | Delegates with the identical class, filter, sorting, pagination and scope, and leaves pagination untouched, exactly when there is no filter or the filter (and the sort, if requested) is not eligible. On an eligible query: a translation failure gives InvalidPredicate with its message and never delegates. Otherwise it returns the pagination window (first = offset, max = limit) of the index hits under the built sort. pageTotals becomes the full hit count iff generateTotals is set, and is unchanged otherwise. |
| SearchDataTransactions.SearchDataTransaction.CanSearch | elide-datastore/elide-datastore-search/src/main/java/com/yahoo/elide/datastores/search/SearchDataTransaction.java:147-181 | True iff every leaf predicate of the expression tree has a path of length 1 and names an indexed field. One failing predicate makes it false. Equals the specification predicate FilterSearchable. |
| SearchDataTransactions.SearchDataTransaction.IsIndexed | elide-datastore/elide-datastore-search/src/main/java/com/yahoo/elide/datastores/search/SearchDataTransaction.java:155-180 | True iff the field's @Field has Index.YES when @Field is present. Otherwise, iff some member of @Fields has Index.YES. With neither annotation it is false. |
| SearchDataTransactions.SearchDataTransaction.CanSort | elide-datastore/elide-datastore-search/src/main/java/com/yahoo/elide/datastores/search/SearchDataTransaction.java:118-139 | True iff every sort rule has a path of length 1 and a field carrying @SortableField. |
| SearchDataTransactions.SearchDataTransaction.BuildSort | elide-datastore/elide-datastore-search/src/main/java/com/yahoo/elide/datastores/search/SearchDataTransaction.java:190-220 | For a non-empty, sortable rule list: exactly one key per rule, in rule order. Key k's field is the forField alias when non-empty and the rule's field name otherwise. Key k is ascending iff rule k is. The keys equal ExpectedSortFields. |
| SearchDataTransactions.SearchDataTransaction.SupportsFiltering | elide-datastore/elide-datastore-search/src/main/java/com/yahoo/elide/datastores/search/SearchDataTransaction.java:222-225 | Always answers PARTIAL, whatever the entity type and expression. |
| SearchDataTransactions.SearchDataTransaction.constructor | elide-datastore/elide-datastore-search/src/main/java/com/yahoo/elide/datastores/search/SearchDataTransaction.java:49-53 | The transaction keeps the dictionary and the full-text entity manager it is given. |
| Filters.ExtractPredicates | elide-datastore/elide-datastore-search/src/main/java/com/yahoo/elide/datastores/search/SearchDataTransaction.java:148 | The extracted predicates are exactly the leaves of the expression tree, whatever and/or/not combinators sit above them. |
| Eligibility.FieldIndexedCases | elide-datastore/elide-datastore-search/src/main/java/com/yahoo/elide/datastores/search/SearchDataTransaction.java:157-180 | @Field takes precedence over @Fields. A field is indexed iff its @Field has Index.YES; without @Field, iff some @Fields member has Index.YES; with neither, never. |
| Eligibility.FilterSearchableIffLeaves | elide-datastore/elide-datastore-search/src/main/java/com/yahoo/elide/datastores/search/SearchDataTransaction.java:148-153 | Filter eligibility holds iff every leaf predicate of the tree is searchable. |
| Eligibility.FailClosed | elide-datastore/elide-datastore-search/src/main/java/com/yahoo/elide/datastores/search/SearchDataTransaction.java:150-153 | A single leaf predicate that is too deep or not indexed makes the filter ineligible. The whole query is then ineligible, whatever the sort. |
| Eligibility.CombinatorsIgnored | elide-datastore/elide-datastore-search/src/main/java/com/yahoo/elide/datastores/search/SearchDataTransaction.java:148-150 | An Or is eligible exactly when the matching And is: both need both operands eligible. A Not is eligible exactly when its operand is. |
| Eligibility.SortGatesSearch | elide-datastore/elide-datastore-search/src/main/java/com/yahoo/elide/datastores/search/SearchDataTransaction.java:66-72 | Without sorting, eligibility is decided by the filter alone. With sorting, one unsortable rule makes the query ineligible even when the filter is eligible. |
| Eligibility.ExpectedSortFieldsAt | elide-datastore/elide-datastore-search/src/main/java/com/yahoo/elide/datastores/search/SearchDataTransaction.java:194-217 | The specified sort has one key per rule. Key k sits on rule k's index field and is non-reversed iff rule k is ascending. |
| Eligibility.ExpectedSortFieldsAppend | elide-datastore/elide-datastore-search/src/main/java/com/yahoo/elide/datastores/search/SearchDataTransaction.java:194-217 | The sort for rules a followed by b is a's keys followed by b's keys: rule order is kept end to end. |
| Lucene.Window | elide-datastore/elide-datastore-search/src/main/java/com/yahoo/elide/datastores/search/SearchDataTransaction.java:86-93 | The page skips firstResult hits and keeps at most maxResults. Its length is min(max, hits left) and element k is hit first+k. |
| Eligibility.WindowExample | elide-datastore/elide-datastore-search/src/main/java/com/yahoo/elide/datastores/search/SearchDataTransaction.java:87-88 | With 35 hits, offset 20 and limit 10, the page is exactly hits 21 to 30. |
| Lucene.SortFieldContext.ByField | elide-datastore/elide-datastore-search/src/main/java/com/yahoo/elide/datastores/search/SearchDataTransaction.java:205 | Starting the sort context gives one key on the field, in natural (ascending) order. |
| Lucene.SortFieldContext.AndByField | elide-datastore/elide-datastore-search/src/main/java/com/yahoo/elide/datastores/search/SearchDataTransaction.java:207 | Appends one key for the field and keeps the earlier keys. |
| Lucene.SortFieldContext.Asc | elide-datastore/elide-datastore-search/src/main/java/com/yahoo/elide/datastores/search/SearchDataTransaction.java:213 | Makes the last key ascending and leaves the others alone. |
| Lucene.SortFieldContext.Desc | elide-datastore/elide-datastore-search/src/main/java/com/yahoo/elide/datastores/search/SearchDataTransaction.java:215 | Makes the last key descending and leaves the others alone. |
| Lucene.SortFieldContext.CreateSort | elide-datastore/elide-datastore-search/src/main/java/com/yahoo/elide/datastores/search/SearchDataTransaction.java:219 | The native sort holds the context's keys in order. |
| Annotations.Lookup | elide-datastore/elide-datastore-search/src/main/java/com/yahoo/elide/datastores/search/SearchDataTransaction.java:159-165 | What the dictionary reports for a field of an entity type: the recorded annotations when both are known. An unknown type or field reports no annotation at all (the null that getAttributeOrRelationAnnotation returns, also used at :133 and :200). |
| Lucene.CreateFullTextQuery | elide-datastore/elide-datastore-search/src/main/java/com/yahoo/elide/datastores/search/SearchDataTransaction.java:80 | A new full-text query on the translated query and the entity type has no sort and no projection. Its window keeps every hit. |
| Lucene.ResultList | elide-datastore/elide-datastore-search/src/main/java/com/yahoo/elide/datastores/search/SearchDataTransaction.java:91-93 | One row per hit inside the window: row k has one column per projection, each the hit at position firstResult + k. With the THIS projection, column 0 is the matched entity. |
| Lucene.ResultSize | elide-datastore/elide-datastore-search/src/main/java/com/yahoo/elide/datastores/search/SearchDataTransaction.java:96 | The total is the number of all hits of the query under its sort, and never less than the number of rows in the page. |
| Lucene.ResultSizeIgnoresWindow | elide-datastore/elide-datastore-search/src/main/java/com/yahoo/elide/datastores/search/SearchDataTransaction.java:86-96 | Changing first result, max results or projection leaves the total unchanged, so pageTotals is the full match count whatever the limit and offset. |
| Paginations.Pagination.SetPageTotals | elide-datastore/elide-datastore-search/src/main/java/com/yahoo/elide/datastores/search/SearchDataTransaction.java:96 | Records the reported total in the caller's pagination object. |

## Notes on the model

- Sorting present, eligible filter, no valid sort rule: `canSort` accepts an
  empty rule list. `buildSort` then calls `createSort` on a context that is
  still null (lines 193 and 219). `BuildSort` therefore requires a non-empty
  rule list. `LoadObjects` returns `NullSortContext` in that case, after the
  filter has been translated and before pagination is touched, which is the
  order in which the source would throw.
- The return value of `context.andByField(...)` is discarded at line 207.
  The model follows the sort DSL, whose field context records every key
  itself, so every rule contributes a key.
- The windowed fetch and the total count read the same hit list.

## Left out

- SearchDataStore.java is not part of this model. Its constructor inspects the
  index directory and creates it. `populateEntityDictionary` runs the mass
  indexer. `beginReadTransaction` and `beginTransaction` only wire the
  entity manager to the wrapped store. All of this is I/O and wiring.
- Aggregation.java is an empty marker interface, so there is nothing to model.
- FilterExpressionToLuceneQuery is not part of this model. Translation is the
  abstract function `toLucene`, which may fail with a message.
- Lucene query execution is the abstract function `matches`. Relevance
  scoring, analyzers and aliases inside the translated query are not modelled.
- The search session's lifecycle is not modelled. Under concurrent index
  updates, the fetch and the count are two separate index operations and may
  disagree; the model treats them as reading the same hit list.
- Java's integer widths are not modelled. Limit, offset and the result size
  are `nat`, so negative or overflowing values cannot occur.
- The result is a finite sequence rather than a lazy `Iterable`.
- The entity dictionary's reflection is modelled as a given map from entity
  type and field name to annotations. A missing type or field reports no
  annotation.
- `Sorting.getValidSortingRules` is not part of this model. Its validation
  and its `InvalidValueException` are outside the core. A `Sorting` is given
  as its resolved rule list, in the rules' iteration order.
- The implementation of `PredicateExtractionVisitor` is not part of this
  model. `Filters.ExtractPredicates` models its result as the left-to-right
  list of leaves. `allMatch` depends only on which predicates occur, not
  on their order.
- Index execution faults are not modelled. `matches` is total, so a failing
  fetch (line 93) or count (line 96) cannot occur. In the source such a fault
  propagates to the caller, and `pageTotals` is then not written.
- The wrapped transaction's own `loadObjects` and the other forwarded
  methods are not modelled. A delegated load is recorded as `Delegated`
  with its arguments.
