/**
 * The comparison builders (`Comparable`) and the combinators that lift a
 * comparison into a condition tree (`Conjuctive`, `Into<ConditionTree>`,
 * `Into<Expression>`). Every builder puts the receiver on the left.
 */
module Comparable {
  import opened Wrappers
  import opened Ast

  function Equals(lhs: DatabaseValue, comparison: DatabaseValue): (c: Compare)
    ensures c.Equals? && c.left == lhs && c.right == comparison
  {
    Compare.Equals(lhs, comparison)
  }

  function NotEquals(lhs: DatabaseValue, comparison: DatabaseValue): (c: Compare)
    ensures c.NotEquals? && c.left == lhs && c.right == comparison
  {
    Compare.NotEquals(lhs, comparison)
  }

  function LessThan(lhs: DatabaseValue, comparison: DatabaseValue): (c: Compare)
    ensures c.LessThan? && c.left == lhs && c.right == comparison
  {
    Compare.LessThan(lhs, comparison)
  }

  function LessThanOrEquals(lhs: DatabaseValue, comparison: DatabaseValue): (c: Compare)
    ensures c.LessThanOrEquals? && c.left == lhs && c.right == comparison
  {
    Compare.LessThanOrEquals(lhs, comparison)
  }

  function GreaterThan(lhs: DatabaseValue, comparison: DatabaseValue): (c: Compare)
    ensures c.GreaterThan? && c.left == lhs && c.right == comparison
  {
    Compare.GreaterThan(lhs, comparison)
  }

  function GreaterThanOrEquals(lhs: DatabaseValue, comparison: DatabaseValue): (c: Compare)
    ensures c.GreaterThanOrEquals? && c.left == lhs && c.right == comparison
  {
    Compare.GreaterThanOrEquals(lhs, comparison)
  }

  /** IN: the selection becomes a Row holding the same elements in the same order. */
  function InSelection(lhs: DatabaseValue, selection: seq<DatabaseValue>): (c: Compare)
    ensures c.In? && c.left == lhs
    ensures |c.selection.values| == |selection|
    ensures forall i :: 0 <= i < |selection| ==> c.selection.values[i] == selection[i]
  {
    Compare.In(lhs, Row(selection))
  }

  function NotInSelection(lhs: DatabaseValue, selection: seq<DatabaseValue>): (c: Compare)
    ensures c.NotIn? && c.left == lhs
    ensures |c.selection.values| == |selection|
    ensures forall i :: 0 <= i < |selection| ==> c.selection.values[i] == selection[i]
  {
    Compare.NotIn(lhs, Row(selection))
  }

  /** The LIKE family stores the caller's pattern untouched: no wildcard is added here. */
  function Like(lhs: DatabaseValue, pattern: string): (c: Compare)
    ensures c.Like? && c.left == lhs && c.pattern == pattern
  {
    Compare.Like(lhs, pattern)
  }

  function NotLike(lhs: DatabaseValue, pattern: string): (c: Compare)
    ensures c.NotLike? && c.left == lhs && c.pattern == pattern
  {
    Compare.NotLike(lhs, pattern)
  }

  function BeginsWith(lhs: DatabaseValue, pattern: string): (c: Compare)
    ensures c.BeginsWith? && c.left == lhs && c.pattern == pattern
  {
    Compare.BeginsWith(lhs, pattern)
  }

  function NotBeginsWith(lhs: DatabaseValue, pattern: string): (c: Compare)
    ensures c.NotBeginsWith? && c.left == lhs && c.pattern == pattern
  {
    Compare.NotBeginsWith(lhs, pattern)
  }

  function EndsInto(lhs: DatabaseValue, pattern: string): (c: Compare)
    ensures c.EndsInto? && c.left == lhs && c.pattern == pattern
  {
    Compare.EndsInto(lhs, pattern)
  }

  function NotEndsInto(lhs: DatabaseValue, pattern: string): (c: Compare)
    ensures c.NotEndsInto? && c.left == lhs && c.pattern == pattern
  {
    Compare.NotEndsInto(lhs, pattern)
  }

  function IsNull(lhs: DatabaseValue): (c: Compare)
    ensures c.Null? && c.left == lhs
  {
    Compare.Null(lhs)
  }

  function IsNotNull(lhs: DatabaseValue): (c: Compare)
    ensures c.NotNull? && c.left == lhs
  {
    Compare.NotNull(lhs)
  }

  /** `Into<Expression> for Compare`. */
  function IntoExpression(c: Compare): (e: Expression)
    ensures e.Comparison? && e.compare == c
  {
    Comparison(c)
  }

  /** `Into<ConditionTree> for Compare`: a single-leaf tree. */
  function IntoConditionTree(c: Compare): (t: ConditionTree)
    ensures t.Single? && t.single == IntoExpression(c)
  {
    Single(IntoExpression(c))
  }

  /** `Conjuctive::and`: the receiver is the left operand. */
  function And(c: Compare, other: Expression): (t: ConditionTree)
    ensures t.And? && t.left == IntoExpression(c) && t.right == other
  {
    ConditionTree.And(IntoExpression(c), other)
  }

  /** `Conjuctive::or`: the receiver is the left operand. */
  function Or(c: Compare, other: Expression): (t: ConditionTree)
    ensures t.Or? && t.left == IntoExpression(c) && t.right == other
  {
    ConditionTree.Or(IntoExpression(c), other)
  }

  /** `Conjuctive::not`. */
  function Not(c: Compare): (t: ConditionTree)
    ensures t.Not? && t.operand == IntoExpression(c)
  {
    ConditionTree.Not(IntoExpression(c))
  }

  /**
   * The receivers of the `comparable!` macro: a column name, a
   * (table, column) pair and a (database, table, column) triple.
   */
  datatype ColumnName =
    | Name(column: string)
    | TableColumn(table: string, column: string)
    | DatabaseTableColumn(database: string, table: string, column: string)

  /** The segments a receiver names, outermost first. */
  function Segments(n: ColumnName): seq<string> {
    match n
    case Name(c) => [c]
    case TableColumn(t, c) => [t, c]
    case DatabaseTableColumn(d, t, c) => [d, t, c]
  }

  /**
   * What every macro-generated builder does first: turn the receiver into a
   * `Column` and that into a `DatabaseValue`; the builder of the same name is
   * then applied to this value.
   */
  function Receiver(n: ColumnName): (v: DatabaseValue)
    ensures v.ColumnRef? && ColumnPath(v.column) == Segments(n)
  {
    match n
    case Name(c) => ColumnRef(Column(c, None))
    case TableColumn(t, c) => ColumnRef(Column(c, Some(Table(t, None))))
    case DatabaseTableColumn(d, t, c) => ColumnRef(Column(c, Some(Table(t, Some(d)))))
  }
}
