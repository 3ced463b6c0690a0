/**
 * The query fragment tree (`QueryComponent`) and join kinds, reconstructed
 * from the cases the compiler matches on, together with the conversion of
 * condition operands into fragments.
 */
module Components {
  import opened Wrappers
  import opened Fields
  import opened Conditions

  datatype JoinType = Inner | Left | Outer | Right

  datatype QueryComponent =
    | Sql(text: string)
    | Parts(parts: seq<QueryComponent>)
    | Select(fields: seq<QueryComponent>, from: QueryComponent, joins: seq<QueryComponent>,
             filter: Option<QueryComponent>, ordersBy: seq<QueryComponent>, offset: Option<QueryComponent>,
             limit: Option<QueryComponent>, groupBy: Option<QueryComponent>, having: Option<QueryComponent>)
    | Column(name: string, table: Option<string>, alias: Option<string>)
    | Table(name: string, alias: Option<string>)
    | Subquery(query: QueryComponent, alias: Option<string>)
    | GroupBy(fields: seq<QueryComponent>)
    | Join(types: seq<JoinType>, with: QueryComponent, leftKey: QueryComponent, rightKey: QueryComponent)
    | Cond(condition: Condition)
    | Limit(count: int)
    | Offset(count: int)

  /** True of fragments that embed no condition anywhere. */
  predicate ConditionFree(q: QueryComponent)
  {
    match q
    case Sql(_) => true
    case Parts(ps) => forall i :: 0 <= i < |ps| ==> ConditionFree(ps[i])
    case Select(fields, from, joins, filter, ordersBy, offset, limit, groupBy, having) =>
      && (forall i :: 0 <= i < |fields| ==> ConditionFree(fields[i]))
      && ConditionFree(from)
      && (forall i :: 0 <= i < |joins| ==> ConditionFree(joins[i]))
      && (filter.Some? ==> ConditionFree(filter.value))
      && (forall i :: 0 <= i < |ordersBy| ==> ConditionFree(ordersBy[i]))
      && (offset.Some? ==> ConditionFree(offset.value))
      && (limit.Some? ==> ConditionFree(limit.value))
      && (groupBy.Some? ==> ConditionFree(groupBy.value))
      && (having.Some? ==> ConditionFree(having.value))
    case Column(_, _, _) => true
    case Table(_, _) => true
    case Subquery(x, _) => ConditionFree(x)
    case GroupBy(fields) => forall i :: 0 <= i < |fields| ==> ConditionFree(fields[i])
    case Join(_, with, leftKey, rightKey) => ConditionFree(with) && ConditionFree(leftKey) && ConditionFree(rightKey)
    case Cond(_) => false
    case Limit(_) => true
    case Offset(_) => true
  }

  /** The fragments a condition operand can turn into. */
  type Lowered = q: QueryComponent | ConditionFree(q) witness Sql("")

  /**
   * The `queryComponent` conversion of a condition's key (a field) and of its
   * operand (a value or a field). The conversion itself is not part of this
   * model; it is taken as a parameter whose results embed no condition, which
   * is what makes compiling a condition terminate.
   */
  datatype Lowering = Lowering(field: DeclaredField -> Lowered, operand: Operand -> Lowered)

  /** Termination rank: condition-free fragments rank below those that embed a condition. */
  function Rank(q: QueryComponent): nat
  {
    if ConditionFree(q) then 0 else 1
  }

  function RankAll(qs: seq<QueryComponent>): nat
  {
    if forall i :: 0 <= i < |qs| ==> ConditionFree(qs[i]) then 0 else 1
  }
}
