/**
 * The SQLite visitor: `?` placeholders, backtick-quoted identifiers, and a
 * private parameter buffer that grows, in traversal order, while the query is
 * rendered. The shared traversal is specified by the `Render*` functions; the
 * `Sqlite` class is the visitor itself and is proved to agree with them.
 */
module SqliteVisitor {
  import opened Wrappers
  import opened Ast

  /** `C_PARAM`: the placeholder emitted for every bound parameter. */
  const Placeholder: string := "?"

  /** `C_QUOTE`: the identifier quote. */
  const QuoteChar: string := "`"

  /** Number of placeholder characters in a piece of SQL text. */
  function Placeholders(s: string): nat {
    if |s| == 0 then 0
    else (if s[0] == '?' then 1 else 0) + Placeholders(s[1..])
  }

  lemma {:induction false} PlaceholdersConcat(a: string, b: string)
    ensures Placeholders(a + b) == Placeholders(a) + Placeholders(b)
  {
    if |a| == 0 {
      assert a + b == b;
    } else {
      assert (a + b)[1..] == a[1..] + b;
      PlaceholdersConcat(a[1..], b);
    }
  }

  /** A rendered piece of a statement: its SQL text and the parameters it binds, in order. */
  datatype Fragment = Fragment(sql: string, params: seq<ParameterizedValue>) {

    /** Concatenation of two fragments, text after text and parameters after parameters. */
    function Then(next: Fragment): Fragment {
      Fragment(sql + next.sql, params + next.params)
    }

    /** As many placeholders in the text as parameters in the buffer. */
    predicate Balanced() {
      Placeholders(sql) == |params|
    }
  }

  /** Fixed SQL text that binds nothing. */
  function Lit(s: string): Fragment {
    Fragment(s, [])
  }

  function Delimited(name: string): string {
    QuoteChar + name + QuoteChar
  }

  /** Each segment quoted on its own, segments joined by `.`. */
  function QuotedPath(path: seq<string>): (q: string)
    requires |path| >= 1
    decreases |path|
  {
    if |path| == 1 then Delimited(path[0])
    else QuotedPath(path[..|path| - 1]) + "." + Delimited(path[|path| - 1])
  }

  function RenderTable(t: Table): string {
    QuotedPath(TablePath(t))
  }

  function RenderColumn(c: Column): string {
    QuotedPath(ColumnPath(c))
  }

  function RenderValue(v: DatabaseValue): Fragment
    decreases v
  {
    match v
    case Parameterized(p) => Fragment(Placeholder, [p])
    case ColumnRef(c) => Lit(RenderColumn(c))
    case RowValue(r) => Lit("(").Then(RenderList(r.values, |r.values|)).Then(Lit(")"))
    case SubSelect(s) => Lit("(").Then(RenderSelect(s)).Then(Lit(")"))
  }

  /** The first `n` values, separated by `, `. */
  function RenderList(vs: seq<DatabaseValue>, n: nat): Fragment
    requires n <= |vs|
    decreases vs, n
  {
    if n == 0 then Lit("")
    else if n == 1 then RenderValue(vs[0])
    else RenderList(vs, n - 1).Then(Lit(", ")).Then(RenderValue(vs[n - 1]))
  }

  /**
   * SELECT list (or `*`), then, when there is a table, FROM, the optional
   * WHERE and SQLite's "no limit" suffix `LIMIT -1`.
   */
  function RenderSelect(s: Select): Fragment
    decreases s, 1
  {
    var columns := if |s.columns| == 0 then Lit("*") else RenderList(s.columns, |s.columns|);
    Lit("SELECT ").Then(columns).Then(RenderSource(s))
  }

  function RenderSource(s: Select): Fragment
    decreases s, 0
  {
    match s.table
    case None => Lit("")
    case Some(t) =>
      var where := match s.conditions
        case None => Lit("")
        case Some(c) => Lit(" WHERE ").Then(RenderTree(c));
      Lit(" FROM " + RenderTable(t)).Then(where).Then(Lit(" LIMIT -1"))
  }

  /** The LIKE-family suffix: the operator and a placeholder; the pattern goes to the parameters. */
  function LikeSuffix(operator: string, pattern: string): Fragment {
    Fragment(operator + Placeholder, [Text(pattern)])
  }

  /** A comparison renders its left operand, then what follows it (`RenderRest`). */
  function RenderCompare(c: Compare): Fragment
    decreases c, 1
  {
    RenderValue(c.left).Then(RenderRest(c))
  }

  function RenderRest(c: Compare): Fragment
    decreases c, 0
  {
    match c
    case Equals(_, r) => Lit(" = ").Then(RenderValue(r))
    case NotEquals(_, r) => Lit(" <> ").Then(RenderValue(r))
    case LessThan(_, r) => Lit(" < ").Then(RenderValue(r))
    case LessThanOrEquals(_, r) => Lit(" <= ").Then(RenderValue(r))
    case GreaterThan(_, r) => Lit(" > ").Then(RenderValue(r))
    case GreaterThanOrEquals(_, r) => Lit(" >= ").Then(RenderValue(r))
    case In(_, row) => Lit(" IN (").Then(RenderList(row.values, |row.values|)).Then(Lit(")"))
    case NotIn(_, row) => Lit(" NOT IN (").Then(RenderList(row.values, |row.values|)).Then(Lit(")"))
    case Like(_, p) => LikeSuffix(" LIKE ", "%" + p + "%")
    case NotLike(_, p) => LikeSuffix(" NOT LIKE ", "%" + p + "%")
    case BeginsWith(_, p) => LikeSuffix(" LIKE ", p + "%")
    case NotBeginsWith(_, p) => LikeSuffix(" NOT LIKE ", p + "%")
    case EndsInto(_, p) => LikeSuffix(" LIKE ", "%" + p)
    case NotEndsInto(_, p) => LikeSuffix(" NOT LIKE ", "%" + p)
    case Null(_) => Lit(" IS NULL")
    case NotNull(_) => Lit(" IS NOT NULL")
  }

  function RenderExpression(e: Expression): Fragment
    decreases e
  {
    match e
    case Tree(t) => RenderTree(t)
    case Comparison(c) => RenderCompare(c)
    case Value(v) => RenderValue(v)
  }

  /** AND, OR and NOT are parenthesised whatever their operands are. */
  function RenderTree(t: ConditionTree): Fragment
    decreases t
  {
    match t
    case And(l, r) => Lit("(").Then(RenderExpression(l)).Then(Lit(" AND ")).Then(RenderExpression(r)).Then(Lit(")"))
    case Or(l, r) => Lit("(").Then(RenderExpression(l)).Then(Lit(" OR ")).Then(RenderExpression(r)).Then(Lit(")"))
    case Not(e) => Lit("(NOT ").Then(RenderExpression(e)).Then(Lit(")"))
    case Single(e) => RenderExpression(e)
    case NoCondition => Lit("1=1")
    case NegativeCondition => Lit("1=0")
  }

  /**
   * AND and OR are always parenthesised and NOT is written `(NOT e)`, whatever
   * their operands; each keeps its operands' parameters in order.
   */
  lemma JunctionsParenthesised(t: ConditionTree)
    ensures t.And? ==> RenderTree(t) == Fragment(
      "(" + RenderExpression(t.left).sql + " AND " + RenderExpression(t.right).sql + ")",
      RenderExpression(t.left).params + RenderExpression(t.right).params)
    ensures t.Or? ==> RenderTree(t) == Fragment(
      "(" + RenderExpression(t.left).sql + " OR " + RenderExpression(t.right).sql + ")",
      RenderExpression(t.left).params + RenderExpression(t.right).params)
    ensures t.Not? ==> RenderTree(t) == Fragment(
      "(NOT " + RenderExpression(t.operand).sql + ")", RenderExpression(t.operand).params)
  {
  }

  /** The SQL-side LIKE pattern: `%p%`, `p%` or `%p`; `None` outside the LIKE family. */
  function WildcardPattern(c: Compare): Option<string> {
    match c
    case Like(_, p) => Some("%" + p + "%")
    case NotLike(_, p) => Some("%" + p + "%")
    case BeginsWith(_, p) => Some(p + "%")
    case NotBeginsWith(_, p) => Some(p + "%")
    case EndsInto(_, p) => Some("%" + p)
    case NotEndsInto(_, p) => Some("%" + p)
    case _ => None
  }

  /**
   * A LIKE-family comparison writes only `LIKE ?` or `NOT LIKE ?` after its
   * left operand and binds the wildcarded pattern as the last parameter.
   */
  lemma LikeFamilyBindsPattern(c: Compare)
    requires WildcardPattern(c).Some?
    ensures RenderCompare(c).sql == RenderValue(c.left).sql
      + (if c.Like? || c.BeginsWith? || c.EndsInto? then " LIKE ?" else " NOT LIKE ?")
    ensures RenderCompare(c).params == RenderValue(c.left).params + [Text(WildcardPattern(c).value)]
  {
  }

  // ---------------------------------------------------------------------------
  // Placeholders and parameters agree
  // ---------------------------------------------------------------------------

  lemma {:induction false} NoPlaceholders(s: string)
    requires '?' !in s
    ensures Placeholders(s) == 0
  {
    if |s| > 0 {
      assert s == [s[0]] + s[1..];
      NoPlaceholders(s[1..]);
    }
  }

  lemma ThenBalanced(a: Fragment, b: Fragment)
    requires a.Balanced() && b.Balanced()
    ensures a.Then(b).Balanced()
  {
    PlaceholdersConcat(a.sql, b.sql);
  }

  /** `open`, a balanced fragment, `close`. */
  lemma WrappedBalanced(open: string, f: Fragment, close: string)
    requires '?' !in open && '?' !in close && f.Balanced()
    ensures Lit(open).Then(f).Then(Lit(close)).Balanced()
  {
    NoPlaceholders(open);
    NoPlaceholders(close);
    ThenBalanced(Lit(open), f);
    ThenBalanced(Lit(open).Then(f), Lit(close));
  }

  /** A balanced fragment, `op`, a balanced fragment. */
  lemma InfixBalanced(f: Fragment, op: string, g: Fragment)
    requires '?' !in op && f.Balanced() && g.Balanced()
    ensures f.Then(Lit(op)).Then(g).Balanced()
  {
    NoPlaceholders(op);
    ThenBalanced(f, Lit(op));
    ThenBalanced(f.Then(Lit(op)), g);
  }

  /** `op` followed by a balanced fragment. */
  lemma PrefixBalanced(op: string, g: Fragment)
    requires '?' !in op && g.Balanced()
    ensures Lit(op).Then(g).Balanced()
  {
    NoPlaceholders(op);
    ThenBalanced(Lit(op), g);
  }

  /** `(`, a balanced fragment, `op`, a balanced fragment, `)`. */
  lemma JunctionBalanced(f: Fragment, op: string, g: Fragment)
    requires '?' !in op && f.Balanced() && g.Balanced()
    ensures Lit("(").Then(f).Then(Lit(op)).Then(g).Then(Lit(")")).Balanced()
  {
    NoPlaceholders("(");
    NoPlaceholders(op);
    NoPlaceholders(")");
    ThenBalanced(Lit("("), f);
    ThenBalanced(Lit("(").Then(f), Lit(op));
    ThenBalanced(Lit("(").Then(f).Then(Lit(op)), g);
    ThenBalanced(Lit("(").Then(f).Then(Lit(op)).Then(g), Lit(")"));
  }

  /** No identifier segment contains the placeholder character. */
  predicate PathClean(path: seq<string>) {
    forall i | 0 <= i < |path| :: '?' !in path[i]
  }

  lemma {:induction false} QuotedPathClean(path: seq<string>)
    requires |path| >= 1 && PathClean(path)
    ensures '?' !in QuotedPath(path)
    decreases |path|
  {
    assert '?' !in path[|path| - 1];
    if |path| > 1 {
      QuotedPathClean(path[..|path| - 1]);
    }
  }

  /*
   * Identifiers are quoted but not escaped, so a `?` inside a table or column
   * name would be a placeholder without a parameter. The `*Clean` predicates
   * say that no identifier in a node contains one.
   */

  predicate ValueClean(v: DatabaseValue)
    decreases v
  {
    match v
    case Parameterized(_) => true
    case ColumnRef(c) => PathClean(ColumnPath(c))
    case RowValue(r) => ListClean(r.values)
    case SubSelect(s) => SelectClean(s)
  }

  predicate ListClean(vs: seq<DatabaseValue>)
    decreases vs
  {
    forall i | 0 <= i < |vs| :: ValueClean(vs[i])
  }

  predicate SelectClean(s: Select)
    decreases s
  {
    && ListClean(s.columns)
    && (match s.table
        case Some(t) => PathClean(TablePath(t))
        case None => true)
    && (match s.conditions
        case Some(c) => TreeClean(c)
        case None => true)
  }

  predicate CompareClean(c: Compare)
    decreases c
  {
    && ValueClean(c.left)
    && match c
       case Equals(_, r) => ValueClean(r)
       case NotEquals(_, r) => ValueClean(r)
       case LessThan(_, r) => ValueClean(r)
       case LessThanOrEquals(_, r) => ValueClean(r)
       case GreaterThan(_, r) => ValueClean(r)
       case GreaterThanOrEquals(_, r) => ValueClean(r)
       case In(_, row) => ListClean(row.values)
       case NotIn(_, row) => ListClean(row.values)
       case Like(_, _) => true
       case NotLike(_, _) => true
       case BeginsWith(_, _) => true
       case NotBeginsWith(_, _) => true
       case EndsInto(_, _) => true
       case NotEndsInto(_, _) => true
       case Null(_) => true
       case NotNull(_) => true
  }

  predicate ExprClean(e: Expression)
    decreases e
  {
    match e
    case Tree(t) => TreeClean(t)
    case Comparison(c) => CompareClean(c)
    case Value(v) => ValueClean(v)
  }

  predicate TreeClean(t: ConditionTree)
    decreases t
  {
    match t
    case And(l, r) => ExprClean(l) && ExprClean(r)
    case Or(l, r) => ExprClean(l) && ExprClean(r)
    case Not(e) => ExprClean(e)
    case Single(e) => ExprClean(e)
    case NoCondition => true
    case NegativeCondition => true
  }

  lemma {:induction false} ValueBalanced(v: DatabaseValue)
    requires ValueClean(v)
    ensures RenderValue(v).Balanced()
    decreases v
  {
    match v
    case Parameterized(p) =>
      assert Placeholders(Placeholder) == 1;
    case ColumnRef(c) =>
      QuotedPathClean(ColumnPath(c));
      NoPlaceholders(RenderColumn(c));
    case RowValue(r) =>
      ListBalanced(r.values, |r.values|);
      WrappedBalanced("(", RenderList(r.values, |r.values|), ")");
    case SubSelect(s) =>
      SelectBalanced(s);
      WrappedBalanced("(", RenderSelect(s), ")");
  }

  lemma {:induction false} ListBalanced(vs: seq<DatabaseValue>, n: nat)
    requires n <= |vs| && ListClean(vs)
    ensures RenderList(vs, n).Balanced()
    decreases vs, n
  {
    if n == 0 {
      NoPlaceholders("");
    } else if n == 1 {
      ValueBalanced(vs[0]);
    } else {
      ListBalanced(vs, n - 1);
      ValueBalanced(vs[n - 1]);
      InfixBalanced(RenderList(vs, n - 1), ", ", RenderValue(vs[n - 1]));
    }
  }

  lemma {:induction false} SelectBalanced(s: Select)
    requires SelectClean(s)
    ensures RenderSelect(s).Balanced()
    decreases s, 1
  {
    NoPlaceholders("SELECT ");
    if |s.columns| == 0 {
      NoPlaceholders("*");
    } else {
      ListBalanced(s.columns, |s.columns|);
    }
    var columns := if |s.columns| == 0 then Lit("*") else RenderList(s.columns, |s.columns|);
    SourceBalanced(s);
    ThenBalanced(Lit("SELECT "), columns);
    ThenBalanced(Lit("SELECT ").Then(columns), RenderSource(s));
  }

  lemma {:induction false} SourceBalanced(s: Select)
    requires SelectClean(s)
    ensures RenderSource(s).Balanced()
    decreases s, 0
  {
    match s.table
    case None =>
      NoPlaceholders("");
    case Some(t) =>
      var where := match s.conditions
        case None => Lit("")
        case Some(c) => Lit(" WHERE ").Then(RenderTree(c));
      match s.conditions {
        case None =>
          NoPlaceholders("");
        case Some(c) =>
          TreeBalanced(c);
          NoPlaceholders(" WHERE ");
          ThenBalanced(Lit(" WHERE "), RenderTree(c));
      }
      QuotedPathClean(TablePath(t));
      WrappedBalanced(" FROM " + RenderTable(t), where, " LIMIT -1");
  }

  lemma {:induction false} CompareBalanced(c: Compare)
    requires CompareClean(c)
    ensures RenderCompare(c).Balanced()
    decreases c, 1
  {
    ValueBalanced(c.left);
    RestBalanced(c);
    ThenBalanced(RenderValue(c.left), RenderRest(c));
  }

  lemma {:induction false} RestBalanced(c: Compare)
    requires CompareClean(c)
    ensures RenderRest(c).Balanced()
    decreases c, 0
  {
    match c
    case Equals(_, r) => ValueBalanced(r); PrefixBalanced(" = ", RenderValue(r));
    case NotEquals(_, r) => ValueBalanced(r); PrefixBalanced(" <> ", RenderValue(r));
    case LessThan(_, r) => ValueBalanced(r); PrefixBalanced(" < ", RenderValue(r));
    case LessThanOrEquals(_, r) => ValueBalanced(r); PrefixBalanced(" <= ", RenderValue(r));
    case GreaterThan(_, r) => ValueBalanced(r); PrefixBalanced(" > ", RenderValue(r));
    case GreaterThanOrEquals(_, r) => ValueBalanced(r); PrefixBalanced(" >= ", RenderValue(r));
    case In(_, row) =>
      ListBalanced(row.values, |row.values|);
      WrappedBalanced(" IN (", RenderList(row.values, |row.values|), ")");
    case NotIn(_, row) =>
      ListBalanced(row.values, |row.values|);
      WrappedBalanced(" NOT IN (", RenderList(row.values, |row.values|), ")");
    case Like(_, p) => LikeSuffixBalanced(" LIKE ", "%" + p + "%");
    case NotLike(_, p) => LikeSuffixBalanced(" NOT LIKE ", "%" + p + "%");
    case BeginsWith(_, p) => LikeSuffixBalanced(" LIKE ", p + "%");
    case NotBeginsWith(_, p) => LikeSuffixBalanced(" NOT LIKE ", p + "%");
    case EndsInto(_, p) => LikeSuffixBalanced(" LIKE ", "%" + p);
    case NotEndsInto(_, p) => LikeSuffixBalanced(" NOT LIKE ", "%" + p);
    case Null(_) => NoPlaceholders(" IS NULL");
    case NotNull(_) => NoPlaceholders(" IS NOT NULL");
  }

  lemma LikeSuffixBalanced(operator: string, pattern: string)
    requires '?' !in operator
    ensures LikeSuffix(operator, pattern).Balanced()
  {
    NoPlaceholders(operator);
    PlaceholdersConcat(operator, Placeholder);
    assert Placeholders(Placeholder) == 1;
  }

  lemma {:induction false} ExprBalanced(e: Expression)
    requires ExprClean(e)
    ensures RenderExpression(e).Balanced()
    decreases e
  {
    match e
    case Tree(t) => TreeBalanced(t);
    case Comparison(c) => CompareBalanced(c);
    case Value(v) => ValueBalanced(v);
  }

  lemma {:induction false} TreeBalanced(t: ConditionTree)
    requires TreeClean(t)
    ensures RenderTree(t).Balanced()
    decreases t
  {
    match t
    case And(l, r) =>
      ExprBalanced(l);
      ExprBalanced(r);
      JunctionBalanced(RenderExpression(l), " AND ", RenderExpression(r));
    case Or(l, r) =>
      ExprBalanced(l);
      ExprBalanced(r);
      JunctionBalanced(RenderExpression(l), " OR ", RenderExpression(r));
    case Not(e) =>
      ExprBalanced(e);
      WrappedBalanced("(NOT ", RenderExpression(e), ")");
    case Single(e) =>
      ExprBalanced(e);
    case NoCondition =>
      NoPlaceholders("1=1");
    case NegativeCondition =>
      NoPlaceholders("1=0");
  }

  // ---------------------------------------------------------------------------
  // Literals never reach the SQL text
  // ---------------------------------------------------------------------------

  /*
   * `Erase*` keeps the shape of a node and forgets its data: every bound
   * literal becomes NULL and every LIKE pattern becomes empty. Rendering an
   * erased node gives the same SQL text and as many parameters, so the text
   * depends on the shape alone and literals and patterns travel only as
   * parameters.
   */

  function EraseValue(v: DatabaseValue): DatabaseValue
    decreases v
  {
    match v
    case Parameterized(_) => Parameterized(ParameterizedValue.Null)
    case ColumnRef(_) => v
    case RowValue(r) => RowValue(Row(EraseList(r.values, |r.values|)))
    case SubSelect(s) => SubSelect(EraseSelect(s))
  }

  /** The first `n` values, each erased. */
  function EraseList(vs: seq<DatabaseValue>, n: nat): (es: seq<DatabaseValue>)
    requires n <= |vs|
    ensures |es| == n
    ensures forall i | 0 <= i < n :: es[i] == EraseValue(vs[i])
    decreases vs, n
  {
    if n == 0 then [] else EraseList(vs, n - 1) + [EraseValue(vs[n - 1])]
  }

  function EraseSelect(s: Select): Select
    decreases s
  {
    var conditions := match s.conditions
      case None => None
      case Some(c) => Some(EraseTree(c));
    Select(s.table, EraseList(s.columns, |s.columns|), conditions)
  }

  function EraseCompare(c: Compare): Compare
    decreases c
  {
    match c
    case Equals(l, r) => Equals(EraseValue(l), EraseValue(r))
    case NotEquals(l, r) => NotEquals(EraseValue(l), EraseValue(r))
    case LessThan(l, r) => LessThan(EraseValue(l), EraseValue(r))
    case LessThanOrEquals(l, r) => LessThanOrEquals(EraseValue(l), EraseValue(r))
    case GreaterThan(l, r) => GreaterThan(EraseValue(l), EraseValue(r))
    case GreaterThanOrEquals(l, r) => GreaterThanOrEquals(EraseValue(l), EraseValue(r))
    case In(l, row) => In(EraseValue(l), Row(EraseList(row.values, |row.values|)))
    case NotIn(l, row) => NotIn(EraseValue(l), Row(EraseList(row.values, |row.values|)))
    case Like(l, _) => Like(EraseValue(l), "")
    case NotLike(l, _) => NotLike(EraseValue(l), "")
    case BeginsWith(l, _) => BeginsWith(EraseValue(l), "")
    case NotBeginsWith(l, _) => NotBeginsWith(EraseValue(l), "")
    case EndsInto(l, _) => EndsInto(EraseValue(l), "")
    case NotEndsInto(l, _) => NotEndsInto(EraseValue(l), "")
    case Null(l) => Compare.Null(EraseValue(l))
    case NotNull(l) => NotNull(EraseValue(l))
  }

  function EraseExpression(e: Expression): Expression
    decreases e
  {
    match e
    case Tree(t) => Tree(EraseTree(t))
    case Comparison(c) => Comparison(EraseCompare(c))
    case Value(v) => Value(EraseValue(v))
  }

  function EraseTree(t: ConditionTree): ConditionTree
    decreases t
  {
    match t
    case And(l, r) => And(EraseExpression(l), EraseExpression(r))
    case Or(l, r) => Or(EraseExpression(l), EraseExpression(r))
    case Not(e) => Not(EraseExpression(e))
    case Single(e) => Single(EraseExpression(e))
    case NoCondition => NoCondition
    case NegativeCondition => NegativeCondition
  }

  /** Same text, same number of parameters. */
  predicate SameShape(a: Fragment, b: Fragment) {
    a.sql == b.sql && |a.params| == |b.params|
  }

  lemma {:induction false} ValueErasure(v: DatabaseValue)
    ensures SameShape(RenderValue(EraseValue(v)), RenderValue(v))
    decreases v
  {
    match v
    case Parameterized(_) =>
    case ColumnRef(_) =>
    case RowValue(r) =>
      ListErasure(r.values, EraseList(r.values, |r.values|), |r.values|);
    case SubSelect(s) =>
      SelectErasure(s);
  }

  lemma {:induction false} ListErasure(vs: seq<DatabaseValue>, es: seq<DatabaseValue>, n: nat)
    requires n <= |vs| == |es|
    requires forall i | 0 <= i < |vs| :: es[i] == EraseValue(vs[i])
    ensures SameShape(RenderList(es, n), RenderList(vs, n))
    decreases vs, n
  {
    if n == 1 {
      ValueErasure(vs[0]);
    } else if n > 1 {
      ListErasure(vs, es, n - 1);
      ValueErasure(vs[n - 1]);
    }
  }

  lemma {:induction false} SelectErasure(s: Select)
    ensures SameShape(RenderSelect(EraseSelect(s)), RenderSelect(s))
    decreases s, 1
  {
    var e := EraseSelect(s);
    ListErasure(s.columns, e.columns, |s.columns|);
    match s.conditions {
      case None =>
      case Some(c) => TreeErasure(c);
    }
  }

  lemma {:induction false} CompareErasure(c: Compare)
    ensures SameShape(RenderCompare(EraseCompare(c)), RenderCompare(c))
    decreases c
  {
    ValueErasure(c.left);
    match c
    case Equals(_, r) => ValueErasure(r);
    case NotEquals(_, r) => ValueErasure(r);
    case LessThan(_, r) => ValueErasure(r);
    case LessThanOrEquals(_, r) => ValueErasure(r);
    case GreaterThan(_, r) => ValueErasure(r);
    case GreaterThanOrEquals(_, r) => ValueErasure(r);
    case In(_, row) => ListErasure(row.values, EraseList(row.values, |row.values|), |row.values|);
    case NotIn(_, row) => ListErasure(row.values, EraseList(row.values, |row.values|), |row.values|);
    case Like(_, _) =>
    case NotLike(_, _) =>
    case BeginsWith(_, _) =>
    case NotBeginsWith(_, _) =>
    case EndsInto(_, _) =>
    case NotEndsInto(_, _) =>
    case Null(_) =>
    case NotNull(_) =>
  }

  lemma {:induction false} ExpressionErasure(e: Expression)
    ensures SameShape(RenderExpression(EraseExpression(e)), RenderExpression(e))
    decreases e
  {
    match e
    case Tree(t) => TreeErasure(t);
    case Comparison(c) => CompareErasure(c);
    case Value(v) => ValueErasure(v);
  }

  lemma {:induction false} TreeErasure(t: ConditionTree)
    ensures SameShape(RenderTree(EraseTree(t)), RenderTree(t))
    decreases t
  {
    match t
    case And(l, r) => ExpressionErasure(l); ExpressionErasure(r);
    case Or(l, r) => ExpressionErasure(l); ExpressionErasure(r);
    case Not(e) => ExpressionErasure(e);
    case Single(e) => ExpressionErasure(e);
    case NoCondition =>
    case NegativeCondition =>
  }

  /**
   * Two queries that differ only in their literals and LIKE patterns render
   * the same SQL text with the same number of parameters.
   */
  lemma DataNeverInSql(a: Select, b: Select)
    requires EraseSelect(a) == EraseSelect(b)
    ensures RenderSelect(a).sql == RenderSelect(b).sql
    ensures |RenderSelect(a).params| == |RenderSelect(b).params|
  {
    SelectErasure(a);
    SelectErasure(b);
  }

  // ---------------------------------------------------------------------------
  // Parameter order is the left-to-right order of the leaves
  // ---------------------------------------------------------------------------

  /** The comparisons and values of an expression, left to right, with the tree structure dropped. */
  function ExpressionLeaves(e: Expression): (leaves: seq<Expression>)
    ensures forall i | 0 <= i < |leaves| :: !leaves[i].Tree?
    decreases e
  {
    match e
    case Tree(t) => TreeLeaves(t)
    case _ => [e]
  }

  function TreeLeaves(t: ConditionTree): (leaves: seq<Expression>)
    ensures forall i | 0 <= i < |leaves| :: !leaves[i].Tree?
    decreases t
  {
    match t
    case And(l, r) => ExpressionLeaves(l) + ExpressionLeaves(r)
    case Or(l, r) => ExpressionLeaves(l) + ExpressionLeaves(r)
    case Not(e) => ExpressionLeaves(e)
    case Single(e) => ExpressionLeaves(e)
    case NoCondition => []
    case NegativeCondition => []
  }

  /** Each leaf's own parameters, leaf after leaf. */
  function LeafParams(leaves: seq<Expression>): seq<ParameterizedValue> {
    if |leaves| == 0 then [] else RenderExpression(leaves[0]).params + LeafParams(leaves[1..])
  }

  lemma {:induction false} LeafParamsConcat(a: seq<Expression>, b: seq<Expression>)
    ensures LeafParams(a + b) == LeafParams(a) + LeafParams(b)
  {
    if |a| == 0 {
      assert a + b == b;
    } else {
      assert (a + b)[1..] == a[1..] + b;
      LeafParamsConcat(a[1..], b);
    }
  }

  lemma {:induction false} ExpressionParamsInOrder(e: Expression)
    ensures RenderExpression(e).params == LeafParams(ExpressionLeaves(e))
    decreases e
  {
    match e
    case Tree(t) => TreeParamsInOrder(t);
    case Comparison(_) => assert LeafParams([e]) == RenderExpression(e).params + LeafParams([]);
    case Value(_) => assert LeafParams([e]) == RenderExpression(e).params + LeafParams([]);
  }

  lemma {:induction false} TreeParamsInOrder(t: ConditionTree)
    ensures RenderTree(t).params == LeafParams(TreeLeaves(t))
    decreases t
  {
    match t
    case And(l, r) =>
      ExpressionParamsInOrder(l);
      ExpressionParamsInOrder(r);
      LeafParamsConcat(ExpressionLeaves(l), ExpressionLeaves(r));
    case Or(l, r) =>
      ExpressionParamsInOrder(l);
      ExpressionParamsInOrder(r);
      LeafParamsConcat(ExpressionLeaves(l), ExpressionLeaves(r));
    case Not(e) => ExpressionParamsInOrder(e);
    case Single(e) => ExpressionParamsInOrder(e);
    case NoCondition =>
    case NegativeCondition =>
  }

  /**
   * Regrouping AND / OR / NOT nodes over the same leaves, in the same order,
   * binds the same parameters in the same order.
   */
  lemma RegroupingKeepsParams(t1: ConditionTree, t2: ConditionTree)
    requires TreeLeaves(t1) == TreeLeaves(t2)
    ensures RenderTree(t1).params == RenderTree(t2).params
  {
    TreeParamsInOrder(t1);
    TreeParamsInOrder(t2);
  }

  // ---------------------------------------------------------------------------
  // Binding parameters to rusqlite
  // ---------------------------------------------------------------------------

  /** rusqlite's `ToSqlOutput`, reduced to the storage class it carries. */
  datatype SqlOutput = SqlNull | SqlInteger(integer: I64) | SqlReal(float: real) | SqlText(text: string)

  /** The parameter a storage class reads back as. */
  function FromSql(o: SqlOutput): ParameterizedValue {
    match o
    case SqlNull => ParameterizedValue.Null
    case SqlInteger(i) => Integer(i)
    case SqlReal(f) => Real(f)
    case SqlText(t) => Text(t)
  }

  /**
   * `to_sql`: never fails; NULL and only NULL goes out as SQL NULL; booleans
   * go out as the integers 1 and 0; everything else reads back unchanged.
   */
  function ToSql(v: ParameterizedValue): (r: Result<SqlOutput, string>)
    ensures r.Success?
    ensures r.value.SqlNull? <==> v.Null?
    ensures !v.Boolean? ==> FromSql(r.value) == v
    ensures v.Boolean? ==> r.value == SqlInteger(if v.boolean then 1 else 0)
  {
    match v
    case Null => Success(SqlNull)
    case Integer(i) => Success(SqlInteger(i))
    case Real(f) => Success(SqlReal(f))
    case Text(t) => Success(SqlText(t))
    case Boolean(b) => Success(SqlInteger(if b then 1 else 0))
  }

  /** The visitor. `parameters` is the buffer `add_parameter` pushes onto. */
  class Sqlite {
    var parameters: seq<ParameterizedValue>

    constructor ()
      ensures parameters == []
    {
      parameters := [];
    }

    /**
     * `build`: a fresh visitor with an empty buffer renders the query; the
     * result is the text and exactly the parameters added on the way.
     */
    static method Build(query: Select) returns (sql: string, params: seq<ParameterizedValue>)
      ensures sql == RenderSelect(query).sql
      ensures params == RenderSelect(query).params
      ensures SelectClean(query) ==> Placeholders(sql) == |params|
    {
      var visitor := new Sqlite();
      sql := visitor.VisitSelect(query);
      params := visitor.parameters;
      if SelectClean(query) {
        SelectBalanced(query);
      }
    }

    method AddParameter(value: ParameterizedValue)
      modifies this
      ensures parameters == old(parameters) + [value]
    {
      parameters := parameters + [value];
    }

    method VisitDatabaseValue(v: DatabaseValue) returns (sql: string)
      modifies this
      ensures sql == RenderValue(v).sql
      ensures parameters == old(parameters) + RenderValue(v).params
      decreases v
    {
      match v
      case Parameterized(p) =>
        AddParameter(p);
        sql := Placeholder;
      case ColumnRef(c) =>
        sql := RenderColumn(c);
      case RowValue(r) =>
        var items := VisitList(r.values);
        sql := "(" + items + ")";
      case SubSelect(s) =>
        var inner := VisitSelect(s);
        sql := "(" + inner + ")";
    }

    method VisitList(vs: seq<DatabaseValue>) returns (sql: string)
      modifies this
      ensures sql == RenderList(vs, |vs|).sql
      ensures parameters == old(parameters) + RenderList(vs, |vs|).params
      decreases vs, |vs| + 1
    {
      sql := "";
      var i := 0;
      while i < |vs|
        invariant 0 <= i <= |vs|
        invariant sql == RenderList(vs, i).sql
        invariant parameters == old(parameters) + RenderList(vs, i).params
      {
        var item := VisitDatabaseValue(vs[i]);
        if i > 0 {
          sql := sql + ", ";
        }
        sql := sql + item;
        i := i + 1;
      }
    }

    method VisitSelect(s: Select) returns (sql: string)
      modifies this
      ensures sql == RenderSelect(s).sql
      ensures parameters == old(parameters) + RenderSelect(s).params
      decreases s, 1
    {
      sql := "SELECT ";
      if |s.columns| == 0 {
        sql := sql + "*";
      } else {
        var columns := VisitList(s.columns);
        sql := sql + columns;
      }
      var source := VisitSource(s);
      sql := sql + source;
    }

    method VisitSource(s: Select) returns (sql: string)
      modifies this
      ensures sql == RenderSource(s).sql
      ensures parameters == old(parameters) + RenderSource(s).params
      decreases s, 0
    {
      sql := "";
      match s.table
      case None =>
      case Some(t) =>
        sql := " FROM " + RenderTable(t);
        match s.conditions {
          case None =>
          case Some(c) =>
            var where := VisitConditions(c);
            sql := sql + " WHERE " + where;
        }
        sql := sql + " LIMIT -1";
    }

    method VisitCompare(c: Compare) returns (sql: string)
      modifies this
      ensures sql == RenderCompare(c).sql
      ensures parameters == old(parameters) + RenderCompare(c).params
      decreases c, 1
    {
      var left := VisitDatabaseValue(c.left);
      var rest := VisitRest(c);
      sql := left + rest;
    }

    method VisitRest(c: Compare) returns (sql: string)
      modifies this
      ensures sql == RenderRest(c).sql
      ensures parameters == old(parameters) + RenderRest(c).params
      decreases c, 0
    {
      match c
      case Equals(_, r) =>
        var right := VisitDatabaseValue(r);
        sql := " = " + right;
      case NotEquals(_, r) =>
        var right := VisitDatabaseValue(r);
        sql := " <> " + right;
      case LessThan(_, r) =>
        var right := VisitDatabaseValue(r);
        sql := " < " + right;
      case LessThanOrEquals(_, r) =>
        var right := VisitDatabaseValue(r);
        sql := " <= " + right;
      case GreaterThan(_, r) =>
        var right := VisitDatabaseValue(r);
        sql := " > " + right;
      case GreaterThanOrEquals(_, r) =>
        var right := VisitDatabaseValue(r);
        sql := " >= " + right;
      case In(_, row) =>
        var items := VisitList(row.values);
        sql := " IN (" + items + ")";
      case NotIn(_, row) =>
        var items := VisitList(row.values);
        sql := " NOT IN (" + items + ")";
      case Like(_, p) =>
        AddParameter(Text("%" + p + "%"));
        sql := " LIKE " + Placeholder;
      case NotLike(_, p) =>
        AddParameter(Text("%" + p + "%"));
        sql := " NOT LIKE " + Placeholder;
      case BeginsWith(_, p) =>
        AddParameter(Text(p + "%"));
        sql := " LIKE " + Placeholder;
      case NotBeginsWith(_, p) =>
        AddParameter(Text(p + "%"));
        sql := " NOT LIKE " + Placeholder;
      case EndsInto(_, p) =>
        AddParameter(Text("%" + p));
        sql := " LIKE " + Placeholder;
      case NotEndsInto(_, p) =>
        AddParameter(Text("%" + p));
        sql := " NOT LIKE " + Placeholder;
      case Null(_) =>
        sql := " IS NULL";
      case NotNull(_) =>
        sql := " IS NOT NULL";
    }

    method VisitExpression(e: Expression) returns (sql: string)
      modifies this
      ensures sql == RenderExpression(e).sql
      ensures parameters == old(parameters) + RenderExpression(e).params
      decreases e
    {
      match e
      case Tree(t) => sql := VisitConditions(t);
      case Comparison(c) => sql := VisitCompare(c);
      case Value(v) => sql := VisitDatabaseValue(v);
    }

    method VisitConditions(t: ConditionTree) returns (sql: string)
      modifies this
      ensures sql == RenderTree(t).sql
      ensures parameters == old(parameters) + RenderTree(t).params
      decreases t
    {
      match t
      case And(l, r) =>
        var left := VisitExpression(l);
        var right := VisitExpression(r);
        sql := "(" + left + " AND " + right + ")";
      case Or(l, r) =>
        var left := VisitExpression(l);
        var right := VisitExpression(r);
        sql := "(" + left + " OR " + right + ")";
      case Not(e) =>
        var inner := VisitExpression(e);
        sql := "(NOT " + inner + ")";
      case Single(e) =>
        sql := VisitExpression(e);
      case NoCondition =>
        sql := "1=1";
      case NegativeCondition =>
        sql := "1=0";
    }
  }
}
