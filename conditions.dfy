/**
 * Boolean conditions over fields, and the functions on `DeclaredField` (and
 * the overloaded comparison operators) that build them. The `Condition` and
 * operand types are reconstructed from the cases the compiler and the
 * builders use.
 */
module Conditions {
  import opened Wrappers
  import opened Fields

  /** The right-hand side of a comparison: a literal value to bind, or another column. */
  datatype Operand =
    | Value(value: Option<SqlData>)
    | Property(field: DeclaredField)

  datatype Condition =
    | Equals(key: DeclaredField, operand: Operand)
    | GreaterThan(key: DeclaredField, operand: Operand)
    | GreaterThanOrEquals(key: DeclaredField, operand: Operand)
    | LessThan(key: DeclaredField, operand: Operand)
    | LessThanOrEquals(key: DeclaredField, operand: Operand)
    | Like(key: DeclaredField, pattern: Option<SqlData>)
    | In(key: DeclaredField, values: seq<Option<SqlData>>)
    | NotIn(key: DeclaredField, values: seq<Option<SqlData>>)
    | And(conditions: seq<Condition>)
    | Or(conditions: seq<Condition>)
    | Not(condition: Condition)
  {
    /** True of the five binary comparisons. */
    predicate IsComparison()
    {
      Equals? || GreaterThan? || GreaterThanOrEquals? || LessThan? || LessThanOrEquals?
    }
  }

  /** The comparison operators, one per comparison case. */
  datatype Comparator = Eq | Gt | Ge | Lt | Le

  /** The comparison `lhs op rhs` for a comparison case `op`. */
  function Compare(op: Comparator, lhs: DeclaredField, rhs: Operand): (c: Condition)
    ensures c.IsComparison() && c.key == lhs && c.operand == rhs
  {
    match op
    case Eq => Equals(lhs, rhs)
    case Gt => GreaterThan(lhs, rhs)
    case Ge => GreaterThanOrEquals(lhs, rhs)
    case Lt => LessThan(lhs, rhs)
    case Le => LessThanOrEquals(lhs, rhs)
  }

  /** The comparator of a comparison case. */
  function ComparatorOf(c: Condition): (op: Comparator)
    requires c.IsComparison()
    ensures Compare(op, c.key, c.operand) == c
  {
    if c.Equals? then Eq
    else if c.GreaterThan? then Gt
    else if c.GreaterThanOrEquals? then Ge
    else if c.LessThan? then Lt
    else Le
  }

  /** `field op value` (and `field.equals(value)`): the comparison against a literal to bind. */
  function CompareValue(op: Comparator, lhs: DeclaredField, rhs: Option<SqlData>): (c: Condition)
    ensures c.IsComparison() && ComparatorOf(c) == op
    ensures c.key == lhs && c.operand == Value(rhs)
  {
    Compare(op, lhs, Value(rhs))
  }

  /** `field op field`: the comparison against another column. */
  function CompareField(op: Comparator, lhs: DeclaredField, rhs: DeclaredField): (c: Condition)
    ensures c.IsComparison() && ComparatorOf(c) == op
    ensures c.key == lhs && c.operand == Property(rhs)
  {
    Compare(op, lhs, Property(rhs))
  }

  /** `containedIn`: membership in the listed values, kept in their order. */
  function ContainedIn(f: DeclaredField, values: seq<Option<SqlData>>): (c: Condition)
    ensures c.In? && c.key == f
    ensures |c.values| == |values| && forall i :: 0 <= i < |values| ==> c.values[i] == values[i]
  {
    In(f, values)
  }

  /** `notContainedIn`: non-membership in the listed values, kept in their order. */
  function NotContainedIn(f: DeclaredField, values: seq<Option<SqlData>>): (c: Condition)
    ensures c.NotIn? && c.key == f
    ensures |c.values| == |values| && forall i :: 0 <= i < |values| ==> c.values[i] == values[i]
  {
    NotIn(f, values)
  }

  /** `like`: a pattern match against a value to bind. */
  function LikeValue(f: DeclaredField, pattern: Option<SqlData>): (c: Condition)
    ensures c.Like? && c.key == f && c.pattern == pattern
  {
    Like(f, pattern)
  }

  /** The two forms of every operator differ only in their right-hand side: a value versus a column. */
  lemma ValueAndFieldFormsDiffer(op: Comparator, lhs: DeclaredField, v: Option<SqlData>, rhs: DeclaredField)
    ensures CompareValue(op, lhs, v) != CompareField(op, lhs, rhs)
    ensures ComparatorOf(CompareValue(op, lhs, v)) == ComparatorOf(CompareField(op, lhs, rhs))
  {
  }

  /** Different operators build different conditions. */
  lemma CompareInjective(op: Comparator, op': Comparator, lhs: DeclaredField, rhs: Operand)
    ensures Compare(op, lhs, rhs) == Compare(op', lhs, rhs) <==> op == op'
  {
  }
}
