/** Elide's sort request, as the list of valid sorting rules it resolves to. */
module Sorts {
  import opened Filters

  datatype SortOrder = Asc | Desc

  /** One rule: sort by the attribute at `path` in direction `order`. */
  datatype SortRule = SortRule(path: Path, order: SortOrder)

  /**
   * A sort request. `rules` is what resolving it against an entity type yields,
   * in the order the client gave them (the first rule is the primary key).
   */
  datatype Sorting = Sorting(rules: seq<SortRule>)
}
