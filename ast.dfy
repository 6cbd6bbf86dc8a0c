/**
 * The query AST: immutable values built by the caller and consumed by a visitor.
 * Only the node kinds the comparison builders and the SQLite visitor touch are modelled.
 */
module Ast {
  import opened Wrappers

  /** Rust's `i64`. */
  type I64 = x: int | -0x8000_0000_0000_0000 <= x < 0x8000_0000_0000_0000

  /** A literal that becomes a bound parameter rather than SQL text. */
  datatype ParameterizedValue =
    | Null
    | Integer(integer: I64)
    | Real(float: real)
    | Text(text: string)
    | Boolean(boolean: bool)

  /** A table, optionally qualified by its database: `db`.`name`. */
  datatype Table = Table(name: string, database: Option<string>)

  /** A column, optionally qualified by its table. */
  datatype Column = Column(name: string, table: Option<Table>)

  /** A parenthesised list of values, the right-hand side of IN / NOT IN. */
  datatype Row = Row(values: seq<DatabaseValue>)

  /** Anything usable as an operand of a comparison. */
  datatype DatabaseValue =
    | Parameterized(value: ParameterizedValue)
    | ColumnRef(column: Column)
    | RowValue(row: Row)
    | SubSelect(select: Select)

  /** The sixteen comparison kinds. */
  datatype Compare =
    | Equals(left: DatabaseValue, right: DatabaseValue)
    | NotEquals(left: DatabaseValue, right: DatabaseValue)
    | LessThan(left: DatabaseValue, right: DatabaseValue)
    | LessThanOrEquals(left: DatabaseValue, right: DatabaseValue)
    | GreaterThan(left: DatabaseValue, right: DatabaseValue)
    | GreaterThanOrEquals(left: DatabaseValue, right: DatabaseValue)
    | In(left: DatabaseValue, selection: Row)
    | NotIn(left: DatabaseValue, selection: Row)
    | Like(left: DatabaseValue, pattern: string)
    | NotLike(left: DatabaseValue, pattern: string)
    | BeginsWith(left: DatabaseValue, pattern: string)
    | NotBeginsWith(left: DatabaseValue, pattern: string)
    | EndsInto(left: DatabaseValue, pattern: string)
    | NotEndsInto(left: DatabaseValue, pattern: string)
    | Null(left: DatabaseValue)
    | NotNull(left: DatabaseValue)

  /** A boolean-valued expression node. */
  datatype Expression =
    | Tree(tree: ConditionTree)
    | Comparison(compare: Compare)
    | Value(value: DatabaseValue)

  /** The boolean algebra of WHERE predicates. */
  datatype ConditionTree =
    | And(left: Expression, right: Expression)
    | Or(left: Expression, right: Expression)
    | Not(operand: Expression)
    | Single(single: Expression)
    | NoCondition
    | NegativeCondition

  /** A SELECT: source table, selected values and an optional WHERE tree. */
  datatype Select = Select(table: Option<Table>, columns: seq<DatabaseValue>, conditions: Option<ConditionTree>)

  /** The identifier segments of a table, outermost first. */
  function TablePath(t: Table): (path: seq<string>)
    ensures 1 <= |path| <= 2 && path[|path| - 1] == t.name
  {
    match t.database
    case Some(db) => [db, t.name]
    case None => [t.name]
  }

  /** The identifier segments of a column, outermost first. */
  function ColumnPath(c: Column): (path: seq<string>)
    ensures 1 <= |path| <= 3 && path[|path| - 1] == c.name
  {
    match c.table
    case Some(t) => TablePath(t) + [c.name]
    case None => [c.name]
  }
}
