/**
 * The builder's two documented examples, replayed on the model: the exact
 * text and argument list each chain of builder calls produces.
 */
module StatementExamples {
  import opened Wrappers
  import opened Text
  import opened OrderedMap
  import opened Statement

  lemma Numerals()
    ensures NatToString(1) == "1" && NatToString(2) == "2" && NatToString(3) == "3"
    ensures NatToString(4) == "4" && NatToString(5) == "5"
  {
    assert DigitChar(1) == '1' && DigitChar(2) == '2' && DigitChar(3) == '3';
    assert DigitChar(4) == '4' && DigitChar(5) == '5';
  }

  lemma FilterColumnsOrdered()
    ensures LexLess("filter_column1", "filter_column2")
  {
  }

  lemma TwoSorted<V>(k1: string, v1: V, k2: string, v2: V)
    requires LexLess(k1, k2)
    ensures Sorted([(k1, v1), (k2, v2)])
  {
    var m := [(k1, v1), (k2, v2)];
    assert m[1..] == [(k2, v2)];
    assert m[1..][1..] == [];
    assert KeySet(m[1..]) == {k2};
  }

  /** The filters of both examples: an equality on one column, an open-closed range on the next. */
  function ExampleFilters(): Filters
  {
    [("filter_column1", [Comparison(EQ, SqlInt(3))]),
     ("filter_column2", [Comparison(GT, SqlInt(25)), Comparison(LTE, SqlInt(125))])]
  }

  lemma ExampleFlatten()
    ensures Flatten(ExampleFilters()) == [Cond("filter_column1", EQ, SqlInt(3)),
      Cond("filter_column2", GT, SqlInt(25)), Cond("filter_column2", LTE, SqlInt(125))]
  {
    var f := ExampleFilters();
    assert f[1..][1..] == [];
    assert Flatten(f[1..]) == [Cond("filter_column2", GT, SqlInt(25)), Cond("filter_column2", LTE, SqlInt(125))];
  }

  lemma ExampleClauses(start: nat)
    ensures Clauses(Flatten(ExampleFilters()), start) == [
      Clause(Cond("filter_column1", EQ, SqlInt(3)), start),
      Clause(Cond("filter_column2", GT, SqlInt(25)), start + 1),
      Clause(Cond("filter_column2", LTE, SqlInt(125)), start + 2)]
  {
    ExampleFlatten();
  }

  lemma Join3(sep: string, x: string, y: string, z: string)
    ensures Join(sep, [x, y, z]) == x + sep + y + sep + z
  {
    JoinSnoc(sep, [x], y);
    assert [x, y] == [x] + [y];
    JoinSnoc(sep, [x, y], z);
    assert [x, y, z] == [x, y] + [z];
  }

  lemma ClauseText(col: string, mode: ComparisonMode, v: SqlValue, i: nat, text: string)
    requires text == col + " " + ModeText(mode) + " $" + NatToString(i)
    ensures Clause(Cond(col, mode, v), i) == text
  {
  }

  /** The WHERE text of the example filters, as three clauses numbered from `start`. */
  lemma ExampleWhere(start: nat, x: string, y: string, z: string)
    requires x == Clause(Cond("filter_column1", EQ, SqlInt(3)), start)
    requires y == Clause(Cond("filter_column2", GT, SqlInt(25)), start + 1)
    requires z == Clause(Cond("filter_column2", LTE, SqlInt(125)), start + 2)
    ensures WhereText(ExampleFilters(), start) == x + " AND " + y + " AND " + z
  {
    ExampleClauses(start);
    Join3(" AND ", x, y, z);
  }

  /** The WHERE text of the select example, whose placeholders start at `$1`. */
  lemma SelectExampleWhere()
    ensures WhereText(ExampleFilters(), 1)
      == "filter_column1 = $1" + " AND " + "filter_column2 > $2" + " AND " + "filter_column2 <= $3"
  {
    Numerals();
    var x, y, z := "filter_column1 = $1", "filter_column2 > $2", "filter_column2 <= $3";
    ClauseText("filter_column1", EQ, SqlInt(3), 1, x);
    ClauseText("filter_column2", GT, SqlInt(25), 2, y);
    ClauseText("filter_column2", LTE, SqlInt(125), 3, z);
    ExampleWhere(1, x, y, z);
  }

  /** The WHERE text of the update example, whose placeholders continue at `$3`. */
  lemma UpdateExampleWhere()
    ensures WhereText(ExampleFilters(), 3)
      == "filter_column1 = $3" + " AND " + "filter_column2 > $4" + " AND " + "filter_column2 <= $5"
  {
    Numerals();
    var x, y, z := "filter_column1 = $3", "filter_column2 > $4", "filter_column2 <= $5";
    ClauseText("filter_column1", EQ, SqlInt(3), 3, x);
    ClauseText("filter_column2", GT, SqlInt(25), 4, y);
    ClauseText("filter_column2", LTE, SqlInt(125), 5, z);
    ExampleWhere(3, x, y, z);
  }

  lemma ExampleWhereArgs()
    ensures WhereArgs(ExampleFilters()) == [SqlInt(3), SqlInt(25), SqlInt(125)]
  {
    ExampleFlatten();
  }

  /** Two ascending keys inserted into an empty map, in order. */
  lemma InsertTwoAscending<V>(k1: string, v1: V, k2: string, v2: V)
    requires LexLess(k1, k2)
    ensures Insert(Insert([], k1, v1), k2, v2) == [(k1, v1), (k2, v2)]
  {
    LexIrreflexive(k1);
    LexAsymmetric(k1, k2);
    var m := Insert([], k1, v1);
    assert m == [(k1, v1)];
    assert m[1..] == [];
  }

  /** The two `with_filter` calls of both examples leave exactly the example filters. */
  lemma ExampleInserts(c1: string, c2: string, r1: Range, r2: Range)
    requires c1 == "filter_column1" && c2 == "filter_column2"
    requires r1 == RangeOf(SqlInt(3))
    requires r2 == Between(RangeLimit(SqlInt(25), false), RangeLimit(SqlInt(125), true))
    ensures Insert(Insert([], c1, RangeComparisons(r1)), c2, RangeComparisons(r2)) == ExampleFilters()
  {
    FilterColumnsOrdered();
    InsertTwoAscending(c1, RangeComparisons(r1), c2, RangeComparisons(r2));
  }

  /** The filter builder both examples start from: `my_table`, filtered by `filter_column1` and `filter_column2`. */
  method ExampleBuilder() returns (b: FilteredOperationBuilder)
    ensures fresh(b) && b.Valid()
    ensures b.State() == FilterState("my_table", "", ExampleFilters(), None)
  {
    b := new FilteredOperationBuilder("my_table");
    b.WithFilter("filter_column1", RangeOf(SqlInt(3)));
    b.WithFilter("filter_column2", Between(RangeLimit(SqlInt(25), false), RangeLimit(SqlInt(125), true)));
    ExampleInserts("filter_column1", "filter_column2", RangeOf(SqlInt(3)),
      Between(RangeLimit(SqlInt(25), false), RangeLimit(SqlInt(125), true)));
  }

  /** `test_select_builder`: the select example's text, piece by piece as the format string assembles it. */
  lemma SelectExampleText()
    ensures FilteredText(FilterState("my_table", "", ExampleFilters(), None), Select(Some(Count), Some(5)))
      == "SELECT count(*)" + " FROM " + "my_table"
        + (" WHERE " + ("filter_column1 = $1" + " AND " + "filter_column2 > $2" + " AND " + "filter_column2 <= $3"))
        + "" + " LIMIT 5" + ";"
  {
    var op := Select(Some(Count), Some(5));
    var w := "filter_column1 = $1" + " AND " + "filter_column2 > $2" + " AND " + "filter_column2 <= $3";
    SelectExampleWhere();
    assert WhereText(ExampleFilters(), 1) == w;
    assert WherePart(w) == " WHERE " + w;
    assert ExtraPart("") == "";
    assert SelectHead(op) == "SELECT count(*)";
    assert IntToString(5) == "5";
    assert OperationSuffix(op) == " LIMIT 5";
  }

  /**
   * `test_select_builder`: a count of the rows of `my_table` with one exact and
   * one two-sided filter, limited to 5, binds 3, 25 and 125 to `$1`…`$3`.
   */
  method SelectBuilderExample() returns (sql: string, args: seq<SqlValue>)
    ensures sql == "SELECT count(*)" + " FROM " + "my_table"
      + (" WHERE " + ("filter_column1 = $1" + " AND " + "filter_column2 > $2" + " AND " + "filter_column2 <= $3"))
      + "" + " LIMIT 5" + ";"
    ensures args == [SqlInt(3), SqlInt(25), SqlInt(125)]
  {
    var b := ExampleBuilder();
    sql, args := b.Build(Select(Some(Count), Some(5)));
    SelectExampleText();
    ExampleWhereArgs();
  }

  lemma ValueColumnsOrdered()
    ensures LexLess("value_column1", "value_column2")
  {
  }

  lemma Join2(sep: string, x: string, y: string)
    ensures Join(sep, [x, y]) == x + sep + y
  {
    JoinSnoc(sep, [x], y);
    assert [x, y] == [x] + [y];
  }

  /** The SET text of the update example. */
  lemma ExampleSetString(values: Entries<SqlValue>)
    requires values == [("value_column1", SqlInt(1)), ("value_column2", SqlInt(2))]
    ensures SetString(values) == "SET " + ("value_column1 = $1" + ", " + "value_column2 = $2")
  {
    Numerals();
    var x, y := "value_column1 = $1", "value_column2 = $2";
    assert "value_column1" + " = $" + "1" == x;
    assert "value_column2" + " = $" + "2" == y;
    assert SetClauses(values) == [x, y];
    Join2(", ", x, y);
  }

  /** `test_update_builder`: the update example's text, piece by piece as the builder assembles it. */
  lemma UpdateExampleText(values: Entries<SqlValue>)
    requires values == [("value_column1", SqlInt(1)), ("value_column2", SqlInt(2))]
    ensures UpdateText(UpdateState("", values, FilterState("my_table", "", ExampleFilters(), None)))
      == "UPDATE " + "my_table" + " " + ("SET " + ("value_column1 = $1" + ", " + "value_column2 = $2"))
        + (" WHERE " + ("filter_column1 = $3" + " AND " + "filter_column2 > $4" + " AND " + "filter_column2 <= $5"))
        + "" + " RETURNING *;"
  {
    ExampleSetString(values);
    UpdateExampleWhere();
  }

  /** `test_update_builder`: the SET values bind first, then the filter values. */
  lemma UpdateExampleArgs(values: Entries<SqlValue>)
    requires values == [("value_column1", SqlInt(1)), ("value_column2", SqlInt(2))]
    ensures UpdateArgs(UpdateState("", values, FilterState("my_table", "", ExampleFilters(), None)))
      == [SqlInt(1), SqlInt(2), SqlInt(3), SqlInt(25), SqlInt(125)]
  {
    ExampleWhereArgs();
    assert Values(values) == [SqlInt(1), SqlInt(2)];
  }

  /**
   * `test_update_builder`: the select example's filters wrapped in an update
   * that sets two columns; the SET values take `$1` and `$2`, the filter
   * values continue at `$3`.
   */
  method UpdateBuilderExample() returns (sql: string, args: seq<SqlValue>)
    ensures sql == "UPDATE " + "my_table" + " " + ("SET " + ("value_column1 = $1" + ", " + "value_column2 = $2"))
      + (" WHERE " + ("filter_column1 = $3" + " AND " + "filter_column2 > $4" + " AND " + "filter_column2 <= $5"))
      + "" + " RETURNING *;"
    ensures args == [SqlInt(1), SqlInt(2), SqlInt(3), SqlInt(25), SqlInt(125)]
  {
    var b := ExampleBuilder();
    var u := new UpdateBuilder.From(b);
    u.WithValue("value_column1", SqlInt(1));
    u.WithValue("value_column2", SqlInt(2));
    ValueColumnsOrdered();
    InsertTwoAscending("value_column1", SqlInt(1), "value_column2", SqlInt(2));
    sql, args := u.Build();
    UpdateExampleText(u.values);
    UpdateExampleArgs(u.values);
  }
}
