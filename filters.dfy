/**
 * Elide's filter language as seen by the search layer: paths, leaf predicates,
 * and the boolean expression tree built over them, together with the
 * predicate extraction that flattens a tree into its leaves.
 */
module Filters {

  type EntityClass = string

  /** One hop of a path: the entity type it starts from and the field it names. */
  datatype PathElement = PathElement(entityClass: EntityClass, fieldName: string)

  /** A path from the queried entity to an attribute; its depth is its length. */
  type Path = seq<PathElement>

  /** The comparison operator of a predicate; the search layer never inspects it. */
  datatype Operator = Operator(name: string)

  /** A leaf of a filter expression. */
  datatype FilterPredicate = FilterPredicate(path: Path, op: Operator, values: seq<string>)
  {
    /** The name of the last field on the path, which is the field the predicate tests. */
    function Field(): string
      requires |path| > 0
    {
      path[|path| - 1].fieldName
    }
  }

  /** A boolean combination of predicates. */
  datatype FilterExpression =
    | And(left: FilterExpression, right: FilterExpression)
    | Or(left: FilterExpression, right: FilterExpression)
    | Not(negated: FilterExpression)
    | Pred(leaf: FilterPredicate)

  /** Reference definition: `p` is one of the leaves of `e`. */
  predicate OccursIn(p: FilterPredicate, e: FilterExpression)
  {
    match e
    case And(l, r) => OccursIn(p, l) || OccursIn(p, r)
    case Or(l, r) => OccursIn(p, l) || OccursIn(p, r)
    case Not(x) => OccursIn(p, x)
    case Pred(q) => p == q
  }

  /**
   * The leaves of `e`, left to right, ignoring the combinators above them
   * (the predicate extraction visitor).
   */
  function ExtractPredicates(e: FilterExpression): (r: seq<FilterPredicate>)
    ensures forall p :: p in r <==> OccursIn(p, e)
    ensures |r| > 0
  {
    match e
    case And(l, r) => ExtractPredicates(l) + ExtractPredicates(r)
    case Or(l, r) => ExtractPredicates(l) + ExtractPredicates(r)
    case Not(x) => ExtractPredicates(x)
    case Pred(q) => [q]
  }
}
