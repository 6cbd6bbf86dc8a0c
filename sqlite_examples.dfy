/**
 * The SQLite visitor's documented renderings, stated over the builders of
 * `Comparable` exactly as a caller writes them.
 */
module SqliteExamples {
  import opened Wrappers
  import opened Ast
  import Comparable
  import opened SqliteVisitor

  /** A string receiver: `"word"` used as a column. */
  function Col(name: string): DatabaseValue {
    Comparable.Receiver(Comparable.Name(name))
  }

  /** `Select::from(table).so_that(conditions)`. */
  function FromTable(table: string, conditions: ConditionTree): Select {
    Select(Some(Table(table, None)), [], Some(conditions))
  }

  /** A string receiver renders as its quoted name and binds nothing. */
  lemma ColumnRendering(name: string)
    ensures RenderValue(Col(name)) == Fragment("`" + name + "`", [])
  {
    assert ColumnPath(Column(name, None)) == [name];
  }

  /** A table-only FROM with a WHERE tree: the tree's text between fixed pieces, the tree's parameters. */
  lemma WhereRendering(name: string, c: ConditionTree)
    ensures RenderSelect(Select(Some(Table(name, None)), [], Some(c)))
         == Fragment("SELECT * FROM `" + name + "` WHERE " + RenderTree(c).sql + " LIMIT -1", RenderTree(c).params)
  {
    WhereParts(name, c);
    WhereAssembly(name, RenderTree(c));
  }

  /** Proof step of `WhereRendering`: the rendering unfolded into its literal pieces and the tree. */
  lemma WhereParts(name: string, c: ConditionTree)
    ensures RenderSelect(Select(Some(Table(name, None)), [], Some(c)))
         == Lit("SELECT ").Then(Lit("*")).Then(Lit(" FROM `" + name + "`").Then(Lit(" WHERE ").Then(RenderTree(c))).Then(Lit(" LIMIT -1")))
  {
    var s := Select(Some(Table(name, None)), [], Some(c));
    TableRendering(name);
    assert RenderSource(s) == Lit(" FROM `" + name + "`").Then(Lit(" WHERE ").Then(RenderTree(c))).Then(Lit(" LIMIT -1"));
  }

  /** Proof step of `WhereRendering`: those pieces joined into one fragment (fragment algebra only). */
  lemma WhereAssembly(name: string, r: Fragment)
    ensures Lit("SELECT ").Then(Lit("*")).Then(Lit(" FROM `" + name + "`").Then(Lit(" WHERE ").Then(r)).Then(Lit(" LIMIT -1")))
         == Fragment("SELECT * FROM `" + name + "` WHERE " + r.sql + " LIMIT -1", r.params)
  {
  }

  /** `Select::default().value(1)`: one placeholder, one parameter, no FROM. */
  lemma SelectOne()
    ensures RenderSelect(Select(None, [Parameterized(Integer(1))], None)) == Fragment("SELECT ?", [Integer(1)])
  {
  }

  /** `Select::from(name)`: every column, no parameters (the test uses the table `musti`). */
  lemma SelectStarFrom(name: string)
    ensures RenderSelect(Select(Some(Table(name, None)), [], None)) == Fragment("SELECT * FROM `" + name + "` LIMIT -1", [])
  {
    StarFromParts(name);
    StarFromAssembly(name);
  }

  /** Proof step of `SelectStarFrom`: the rendering unfolded into its literal pieces. */
  lemma StarFromParts(name: string)
    ensures RenderSelect(Select(Some(Table(name, None)), [], None))
         == Lit("SELECT ").Then(Lit("*")).Then(Lit(" FROM `" + name + "`").Then(Lit("")).Then(Lit(" LIMIT -1")))
  {
    var s := Select(Some(Table(name, None)), [], None);
    TableRendering(name);
    assert RenderSource(s) == Lit(" FROM `" + name + "`").Then(Lit("")).Then(Lit(" LIMIT -1"));
  }

  /** Proof step of `SelectStarFrom`: those pieces joined into one fragment (fragment algebra only). */
  lemma StarFromAssembly(name: string)
    ensures Lit("SELECT ").Then(Lit("*")).Then(Lit(" FROM `" + name + "`").Then(Lit("")).Then(Lit(" LIMIT -1")))
         == Fragment("SELECT * FROM `" + name + "` LIMIT -1", [])
  {
  }

  /** A one-segment table renders as its backtick-quoted name. */
  lemma TableRendering(name: string)
    ensures RenderTable(Table(name, None)) == "`" + name + "`"
  {
    assert TablePath(Table(name, None)) == [name];
  }

  /** `Select::from((db, table)).column(a).column(b)`: each segment quoted, joined by `.`. */
  lemma SelectFieldsFrom(db: string, table: string, a: string, b: string)
    ensures RenderSelect(Select(Some(Table(table, Some(db))), [Col(a), Col(b)], None))
         == Fragment("SELECT `" + a + "`, `" + b + "` FROM `" + db + "`.`" + table + "` LIMIT -1", [])
  {
    var s := Select(Some(Table(table, Some(db))), [Col(a), Col(b)], None);
    TwoColumns(a, b);
    QualifiedTable(db, table);
    assert RenderSource(s) == Lit(" FROM " + RenderTable(Table(table, Some(db)))).Then(Lit("")).Then(Lit(" LIMIT -1"));
    assert RenderSelect(s) == Lit("SELECT ").Then(RenderList(s.columns, 2)).Then(RenderSource(s));
    FieldsFromText(a, b, db, table);
  }

  /** Proof step of `SelectFieldsFrom`: re-associating the concatenation (string algebra only). */
  lemma FieldsFromText(a: string, b: string, db: string, table: string)
    ensures "SELECT " + ("`" + a + "`, `" + b + "`") + (" FROM " + ("`" + db + "`.`" + table + "`") + "" + " LIMIT -1")
         == "SELECT `" + a + "`, `" + b + "` FROM `" + db + "`.`" + table + "` LIMIT -1"
  {
  }

  /** Two string receivers render as their quoted names joined by `, `, binding nothing. */
  lemma TwoColumns(a: string, b: string)
    ensures RenderList([Col(a), Col(b)], 2) == Fragment("`" + a + "`, `" + b + "`", [])
  {
    ColumnRendering(a);
    ColumnRendering(b);
    assert RenderList([Col(a), Col(b)], 1) == RenderValue(Col(a));
  }

  /** A database-qualified table renders as two quoted segments joined by `.`. */
  lemma QualifiedTable(db: string, table: string)
    ensures RenderTable(Table(table, Some(db))) == "`" + db + "`.`" + table + "`"
  {
    assert TablePath(Table(table, Some(db))) == [db, table];
    assert [db, table][..1] == [db];
    assert QuotedPath([db]) == Delimited(db);
    assert QuotedPath([db, table]) == QuotedPath([db]) + "." + Delimited(table);
  }

  /** `Select::from(table).so_that(column.equals(v))`. */
  lemma SelectWhereEquals(table: string, column: string, v: ParameterizedValue)
    ensures RenderSelect(FromTable(table, Comparable.IntoConditionTree(Comparable.Equals(Col(column), Parameterized(v)))))
         == Fragment("SELECT * FROM `" + table + "` WHERE `" + column + "` = ? LIMIT -1", [v])
  {
    var c := Comparable.Equals(Col(column), Parameterized(v));
    EqualsRendering(column, v);
    WhereRendering(table, Comparable.IntoConditionTree(c));
  }

  lemma EqualsRendering(column: string, v: ParameterizedValue)
    ensures RenderCompare(Comparable.Equals(Col(column), Parameterized(v))) == Fragment("`" + column + "` = ?", [v])
  {
    ColumnRendering(column);
    assert RenderRest(Comparable.Equals(Col(column), Parameterized(v))) == Fragment(" = ?", [v]);
  }

  /** A LIKE-family comparison on a string receiver, in a WHERE. */
  lemma SelectWhereLike(table: string, column: string, c: Compare)
    requires c.left == Col(column) && WildcardPattern(c).Some?
    ensures RenderSelect(FromTable(table, Comparable.IntoConditionTree(c)))
         == Fragment("SELECT * FROM `" + table + "` WHERE `" + column + "`"
                     + (if c.Like? || c.BeginsWith? || c.EndsInto? then " LIKE ?" else " NOT LIKE ?")
                     + " LIMIT -1",
                     [Text(WildcardPattern(c).value)])
  {
    var op := if c.Like? || c.BeginsWith? || c.EndsInto? then " LIKE ?" else " NOT LIKE ?";
    var t := Comparable.IntoConditionTree(c);
    ColumnRendering(column);
    LikeFamilyBindsPattern(c);
    assert RenderTree(t) == Fragment("`" + column + "`" + op, [Text(WildcardPattern(c).value)]);
    WhereRendering(table, t);
    WhereOneComparison(table, "`" + column + "`", op, Text(WildcardPattern(c).value), RenderSelect(FromTable(table, t)), RenderTree(t));
  }

  /** A WHERE holding one comparison that binds one parameter. */
  lemma WhereOneComparison(table: string, left: string, op: string, p: ParameterizedValue, select: Fragment, tree: Fragment)
    requires tree == Fragment(left + op, [p])
    requires select == Fragment("SELECT * FROM `" + table + "` WHERE " + tree.sql + " LIMIT -1", tree.params)
    ensures select == Fragment("SELECT * FROM `" + table + "` WHERE " + left + op + " LIMIT -1", [p])
  {
    assert "SELECT * FROM `" + table + "` WHERE " + (left + op) + " LIMIT -1" == "SELECT * FROM `" + table + "` WHERE " + left + op + " LIMIT -1";
  }

  /** The six LIKE builders: which wildcards each adds to the bound pattern. */
  lemma LikeBuildersWildcards(column: string, p: string)
    ensures WildcardPattern(Comparable.Like(Col(column), p)) == Some("%" + p + "%")
    ensures WildcardPattern(Comparable.NotLike(Col(column), p)) == Some("%" + p + "%")
    ensures WildcardPattern(Comparable.BeginsWith(Col(column), p)) == Some(p + "%")
    ensures WildcardPattern(Comparable.NotBeginsWith(Col(column), p)) == Some(p + "%")
    ensures WildcardPattern(Comparable.EndsInto(Col(column), p)) == Some("%" + p)
    ensures WildcardPattern(Comparable.NotEndsInto(Col(column), p)) == Some("%" + p)
  {
  }

  /** `a.and(b).and(c)`: the left group is parenthesised inside the outer one. */
  lemma AndThenAnd(a: Compare, b: Compare, c: Compare)
    ensures var (fa, fb, fc) := (RenderCompare(a), RenderCompare(b), RenderCompare(c));
      RenderTree(And(Tree(Comparable.And(a, Comparison(b))), Comparison(c)))
      == Fragment("((" + fa.sql + " AND " + fb.sql + ") AND " + fc.sql + ")", fa.params + fb.params + fc.params)
  {
    LeftGroup(Comparable.And(a, Comparison(b)), a, b, c, " AND ");
  }

  /** `a.and(b.and(c))`: other parentheses, the same parameters in the same order. */
  lemma AndOfAnd(a: Compare, b: Compare, c: Compare)
    ensures var (fa, fb, fc) := (RenderCompare(a), RenderCompare(b), RenderCompare(c));
      RenderTree(Comparable.And(a, Tree(Comparable.And(b, Comparison(c)))))
      == Fragment("(" + fa.sql + " AND (" + fb.sql + " AND " + fc.sql + "))", fa.params + fb.params + fc.params)
  {
    var inner := Comparable.And(b, Comparison(c));
    JunctionsParenthesised(inner);
    JunctionsParenthesised(Comparable.And(a, Tree(inner)));
    RightGroupText(RenderCompare(a).sql, RenderCompare(b).sql, RenderCompare(c).sql);
  }

  /** `a.or(b).and(c)`. */
  lemma OrThenAnd(a: Compare, b: Compare, c: Compare)
    ensures var (fa, fb, fc) := (RenderCompare(a), RenderCompare(b), RenderCompare(c));
      RenderTree(And(Tree(Comparable.Or(a, Comparison(b))), Comparison(c)))
      == Fragment("((" + fa.sql + " OR " + fb.sql + ") AND " + fc.sql + ")", fa.params + fb.params + fc.params)
  {
    LeftGroup(Comparable.Or(a, Comparison(b)), a, b, c, " OR ");
  }

  /** A junction of two comparisons, itself the left operand of an AND with a third. */
  lemma LeftGroup(inner: ConditionTree, a: Compare, b: Compare, c: Compare, op: string)
    requires (inner == And(Comparison(a), Comparison(b)) && op == " AND ")
          || (inner == Or(Comparison(a), Comparison(b)) && op == " OR ")
    ensures var (fa, fb, fc) := (RenderCompare(a), RenderCompare(b), RenderCompare(c));
      RenderTree(And(Tree(inner), Comparison(c)))
      == Fragment("((" + fa.sql + op + fb.sql + ") AND " + fc.sql + ")", fa.params + fb.params + fc.params)
  {
    var (fa, fb, fc) := (RenderCompare(a), RenderCompare(b), RenderCompare(c));
    var g := Fragment("(" + fa.sql + op + fb.sql + ")", fa.params + fb.params);
    assert RenderTree(inner) == Lit("(").Then(fa).Then(Lit(op)).Then(fb).Then(Lit(")"));
    JunctionFragment(fa, op, fb);
    assert RenderTree(And(Tree(inner), Comparison(c))) == Lit("(").Then(g).Then(Lit(" AND ")).Then(fc).Then(Lit(")"));
    JunctionFragment(g, " AND ", fc);
    LeftGroupText(fa.sql, op, fb.sql, " AND ", fc.sql);
  }

  /** A parenthesised junction of two fragments, as one fragment. */
  lemma JunctionFragment(f: Fragment, op: string, g: Fragment)
    ensures Lit("(").Then(f).Then(Lit(op)).Then(g).Then(Lit(")")) == Fragment("(" + f.sql + op + g.sql + ")", f.params + g.params)
  {
  }

  /** `a.or(b).and(c).not()`: `(NOT ...)` around the group, parameters unchanged. */
  lemma OrThenAndNegated(a: Compare, b: Compare, c: Compare)
    ensures var (fa, fb, fc) := (RenderCompare(a), RenderCompare(b), RenderCompare(c));
      RenderTree(Not(Tree(And(Tree(Comparable.Or(a, Comparison(b))), Comparison(c)))))
      == Fragment("(NOT ((" + fa.sql + " OR " + fb.sql + ") AND " + fc.sql + "))", fa.params + fb.params + fc.params)
  {
    var t := And(Tree(Comparable.Or(a, Comparison(b))), Comparison(c));
    OrThenAnd(a, b, c);
    JunctionsParenthesised(Not(Tree(t)));
    NegatedGroupText(RenderCompare(a).sql, RenderCompare(b).sql, RenderCompare(c).sql);
  }

  /** Proof step of `LeftGroup`: re-associating the nested parentheses (string algebra only). */
  lemma LeftGroupText(x: string, inner: string, y: string, outer: string, z: string)
    ensures "(" + ("(" + x + inner + y + ")") + outer + z + ")" == "((" + x + inner + y + ")" + outer + z + ")"
  {
  }

  /** Proof step of `AndOfAnd`: re-associating the nested parentheses (string algebra only). */
  lemma RightGroupText(x: string, y: string, z: string)
    ensures "(" + x + " AND " + ("(" + y + " AND " + z + ")") + ")" == "(" + x + " AND (" + y + " AND " + z + "))"
  {
  }

  /** Proof step of `OrThenAndNegated`: re-associating the nested parentheses (string algebra only). */
  lemma NegatedGroupText(x: string, y: string, z: string)
    ensures "(NOT " + ("((" + x + " OR " + y + ") AND " + z + ")") + ")" == "(NOT ((" + x + " OR " + y + ") AND " + z + "))"
  {
  }
}
