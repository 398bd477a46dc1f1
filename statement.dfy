/**
 * The SQL statement builder: typed filter, insert and update payloads become
 * Postgres text with positional parameters `$1, $2, …` and the list of
 * arguments those parameters bind, in order.
 *
 * The builders are objects whose `With…` methods update their fields; each
 * `Build` is proved against a function of the builder's state
 * (`FilteredText`, `InsertText`, `UpdateText`), and the properties of those
 * functions are proved in module StatementProps.
 */
module Statement {
  import opened Wrappers
  import opened Text
  import opened OrderedMap
  import opened Placeholders

  /** The closed set of values a statement can bind (in place of a boxed `ToSql`). */
  datatype SqlValue =
    | SqlInt(i: int)
    | SqlText(s: string)
    | SqlBool(b: bool)
    | SqlUuid(uuid: string)
    | SqlTimestamp(micros: int)
    | SqlNull

  datatype SelectOperation = Count

  /** `SelectOperation::to_sql`. */
  function SelectOperationSql(op: SelectOperation): (s: string)
    ensures NoDollar(s) && |s| > 0
  {
    match op
    case Count => "count"
  }

  datatype FilteredOperation =
    | Select(op: Option<SelectOperation>, limit: Option<Int32>)
    | Delete

  datatype ComparisonMode = LT | LTE | EQ | GTE | GT

  /** Reads an operator back; the partner of `ModeText`. */
  function ParseMode(s: string): Option<ComparisonMode>
  {
    if s == "<" then Some(LT)
    else if s == "<=" then Some(LTE)
    else if s == "=" then Some(EQ)
    else if s == ">=" then Some(GTE)
    else if s == ">" then Some(GT)
    else None
  }

  /** `Display for ComparisonMode`: the SQL operator, which reads back as the same mode. */
  function ModeText(m: ComparisonMode): (s: string)
    ensures ParseMode(s) == Some(m)
    ensures NoDollar(s) && 1 <= |s| <= 2
  {
    match m
    case LT => "<"
    case LTE => "<="
    case EQ => "="
    case GTE => ">="
    case GT => ">"
  }

  datatype Comparison = Comparison(mode: ComparisonMode, value: SqlValue)

  datatype RangeLimit = RangeLimit(value: SqlValue, inclusive: bool)

  datatype Range =
    | Exact(v: SqlValue)
    | From(from: RangeLimit)
    | To(to: RangeLimit)
    | Between(lower: RangeLimit, upper: RangeLimit)

  function LowerMode(inclusive: bool): ComparisonMode {
    if inclusive then GTE else GT
  }

  function UpperMode(inclusive: bool): ComparisonMode {
    if inclusive then LTE else LT
  }

  /** What `x op bound` means for integers. */
  predicate Holds(mode: ComparisonMode, x: int, bound: int) {
    match mode
    case LT => x < bound
    case LTE => x <= bound
    case EQ => x == bound
    case GTE => x >= bound
    case GT => x > bound
  }

  predicate IsIntRange(r: Range) {
    match r
    case Exact(v) => v.SqlInt?
    case From(lo) => lo.value.SqlInt?
    case To(hi) => hi.value.SqlInt?
    case Between(lo, hi) => lo.value.SqlInt? && hi.value.SqlInt?
  }

  /** `x` lies on the allowed side of a limit: strictly beyond it, or on it when the limit is inclusive. */
  predicate AboveLimit(lo: RangeLimit, x: int)
    requires lo.value.SqlInt?
  {
    lo.value.i < x || (lo.inclusive && x == lo.value.i)
  }

  predicate BelowLimit(hi: RangeLimit, x: int)
    requires hi.value.SqlInt?
  {
    x < hi.value.i || (hi.inclusive && x == hi.value.i)
  }

  /** Membership of an integer in a range: the meaning the rendered comparisons must have. */
  predicate InRange(r: Range, x: int)
    requires IsIntRange(r)
  {
    match r
    case Exact(v) => x == v.i
    case From(lo) => AboveLimit(lo, x)
    case To(hi) => BelowLimit(hi, x)
    case Between(lo, hi) => AboveLimit(lo, x) && BelowLimit(hi, x)
  }

  /** `x` passes every comparison of `cs`, whose values are integers. */
  predicate Satisfies(cs: seq<Comparison>, x: int)
    requires forall k :: 0 <= k < |cs| ==> cs[k].value.SqlInt?
  {
    forall k :: 0 <= k < |cs| ==> Holds(cs[k].mode, x, cs[k].value.i)
  }

  /** The comparisons `with_filter` registers for one range: one, or two for `Between`. */
  function RangeComparisons(r: Range): (cs: seq<Comparison>)
    ensures 1 <= |cs| <= 2 && (|cs| == 2 <==> r.Between?)
    ensures IsIntRange(r) ==> forall k :: 0 <= k < |cs| ==> cs[k].value.SqlInt?
  {
    match r
    case Exact(v) => [Comparison(EQ, v)]
    case From(lo) => [Comparison(LowerMode(lo.inclusive), lo.value)]
    case To(hi) => [Comparison(UpperMode(hi.inclusive), hi.value)]
    case Between(lo, hi) =>
      [Comparison(LowerMode(lo.inclusive), lo.value), Comparison(UpperMode(hi.inclusive), hi.value)]
  }

  /** Together, the comparisons registered for a range accept exactly its members. */
  lemma RangeComparisonsMeaning(r: Range, x: int)
    requires IsIntRange(r)
    ensures Satisfies(RangeComparisons(r), x) <==> InRange(r, x)
  {
    var cs := RangeComparisons(r);
    if Satisfies(cs, x) {
      assert Holds(cs[0].mode, x, cs[0].value.i);
      if r.Between? {
        assert Holds(cs[1].mode, x, cs[1].value.i);
      }
    }
  }

  /** `From<V> for Range<V>`: a bare value filters by equality. */
  function RangeOf(v: SqlValue): (r: Range)
    ensures RangeComparisons(r) == [Comparison(EQ, v)]
  {
    Exact(v)
  }

  type Filters = Entries<seq<Comparison>>

  /** One rendered comparison: `column op $index`, binding `value`. */
  datatype Cond = Cond(column: string, mode: ComparisonMode, value: SqlValue)

  function ColumnConds(column: string, cs: seq<Comparison>): (r: seq<Cond>)
    ensures |r| == |cs|
  {
    seq(|cs|, k requires 0 <= k < |cs| => Cond(column, cs[k].mode, cs[k].value))
  }

  /** The comparisons in the order the nested loop visits them: columns ascending, each column's list in order. */
  function Flatten(f: Filters): seq<Cond>
  {
    if f == [] then [] else ColumnConds(f[0].0, f[0].1) + Flatten(f[1..])
  }

  function Clause(c: Cond, index: nat): string {
    c.column + " " + ModeText(c.mode) + " $" + NatToString(index)
  }

  function Clauses(cs: seq<Cond>, start: nat): (r: seq<string>)
    ensures |r| == |cs|
  {
    seq(|cs|, k requires 0 <= k < |cs| => Clause(cs[k], start + k))
  }

  function CondValues(cs: seq<Cond>): (r: seq<SqlValue>)
    ensures |r| == |cs|
  {
    seq(|cs|, k requires 0 <= k < |cs| => cs[k].value)
  }

  /** The text of `build_where_from_filters(filters, start)`. */
  function WhereText(f: Filters, start: nat): string {
    Join(" AND ", Clauses(Flatten(f), start))
  }

  /** The arguments of `build_where_from_filters`, one per comparison. */
  function WhereArgs(f: Filters): seq<SqlValue> {
    CondValues(Flatten(f))
  }

  function WherePart(w: string): string {
    if w == "" then "" else " WHERE " + w
  }

  function ExtraPart(extra: string): string {
    if extra == "" then "" else " " + extra
  }

  function SelectHead(op: FilteredOperation): string {
    match op
    case Select(None, _) => "SELECT *"
    case Select(Some(agg), _) => "SELECT " + SelectOperationSql(agg) + "(*)"
    case Delete => "DELETE"
  }

  /** What closes a filtered statement: `RETURNING *` for a delete, the operation's own LIMIT for a select. */
  function OperationSuffix(op: FilteredOperation): string {
    match op
    case Delete => " RETURNING *"
    case Select(_, Some(n)) => " LIMIT " + IntToString(n)
    case Select(_, None) => ""
  }

  /** The state of a `FilteredOperationBuilder`. */
  datatype FilterState = FilterState(table: string, extra: string, filters: Filters, limit: Option<Int32>)

  /** `FilteredOperationBuilder::build(op)`; the state's `limit` takes no part. */
  function FilteredText(s: FilterState, op: FilteredOperation): (r: string)
    ensures |r| > 0 && r[|r| - 1] == ';'
  {
    SelectHead(op) + " FROM " + s.table + WherePart(WhereText(s.filters, 1)) + ExtraPart(s.extra)
      + OperationSuffix(op) + ";"
  }

  /** The state of an `InsertBuilder`. */
  datatype InsertState = InsertState(table: string, extra: string, values: Entries<SqlValue>)

  function Dollars(from: nat, n: nat): (r: seq<string>)
    ensures |r| == n
    ensures forall k :: 0 <= k < n ==> r[k] == "$" + NatToString(from + k)
  {
    seq(n, k requires 0 <= k < n => "$" + NatToString(from + k))
  }

  /** `InsertBuilder::build`: columns ascending, the k-th column bound to `$k`. */
  function InsertText(s: InsertState): (r: string)
    ensures |r| > 0 && r[|r| - 1] == ';'
  {
    "INSERT INTO " + s.table + " (" + Join(", ", Keys(s.values)) + ") VALUES ("
      + Join(", ", Dollars(1, |s.values|)) + ")" + ExtraPart(s.extra) + " RETURNING *;"
  }

  /** The state of an `UpdateBuilder`: its own extra, the SET values and the filter builder it wraps. */
  datatype UpdateState = UpdateState(extra: string, values: Entries<SqlValue>, filters: FilterState)

  function SetClauses(values: Entries<SqlValue>): (r: seq<string>)
    ensures |r| == |values|
    ensures forall k :: 0 <= k < |values| ==> r[k] == values[k].0 + " = $" + NatToString(k + 1)
  {
    seq(|values|, k requires 0 <= k < |values| => values[k].0 + " = $" + NatToString(k + 1))
  }

  function SetString(values: Entries<SqlValue>): string {
    "SET " + Join(", ", SetClauses(values))
  }

  /**
   * `UpdateBuilder::build`. Without SET values it is the filter builder's plain
   * SELECT, rendered with the FILTER builder's extra; otherwise an UPDATE whose
   * WHERE placeholders continue after the SET placeholders.
   */
  function UpdateText(s: UpdateState): (r: string)
    ensures |r| > 0 && r[|r| - 1] == ';'
  {
    if s.values == [] then FilteredText(s.filters, Select(None, None))
    else
      "UPDATE " + s.filters.table + " " + SetString(s.values)
        + WherePart(WhereText(s.filters.filters, |s.values| + 1)) + ExtraPart(s.extra) + " RETURNING *;"
  }

  /** SET values first, then the WHERE values. */
  function UpdateArgs(s: UpdateState): seq<SqlValue> {
    Values(s.values) + WhereArgs(s.filters.filters)
  }

  lemma {:induction false} FlattenConcat(a: Filters, b: Filters)
    ensures Flatten(a + b) == Flatten(a) + Flatten(b)
  {
    if a == [] {
      assert a + b == b;
    } else {
      assert (a + b)[1..] == a[1..] + b;
      FlattenConcat(a[1..], b);
    }
  }

  lemma FlattenPrefix(f: Filters, n: nat)
    requires n < |f|
    ensures Flatten(f[..n + 1]) == Flatten(f[..n]) + ColumnConds(f[n].0, f[n].1)
  {
    assert f[..n + 1] == f[..n] + [f[n]];
    FlattenConcat(f[..n], [f[n]]);
    assert Flatten([f[n]]) == ColumnConds(f[n].0, f[n].1) + Flatten([]);
  }

  lemma ColumnCondsPrefix(column: string, cs: seq<Comparison>, m: nat)
    requires m < |cs|
    ensures ColumnConds(column, cs[..0]) == []
    ensures ColumnConds(column, cs[..m + 1]) == ColumnConds(column, cs[..m]) + [Cond(column, cs[m].mode, cs[m].value)]
  {
  }

  /** The state of `build_where_from_filters` after rendering the comparisons `done`. */
  ghost predicate WhereSoFar(done: seq<Cond>, start: nat, query: string, args: seq<SqlValue>, i: nat, started: bool)
  {
    && query == Join(" AND ", Clauses(done, start)) && args == CondValues(done)
    && i == start + |done| && started == (|done| > 0)
  }

  lemma ClausesSnoc(done: seq<Cond>, c: Cond, start: nat)
    ensures Clauses(done + [c], start) == Clauses(done, start) + [Clause(c, start + |done|)]
    ensures CondValues(done + [c]) == CondValues(done) + [c.value]
  {
  }

  /** One turn of the inner loop of `build_where_from_filters`. */
  lemma WhereStep(done: seq<Cond>, c: Cond, start: nat, query: string, args: seq<SqlValue>, i: nat, started: bool)
    requires WhereSoFar(done, start, query, args, i, started)
    ensures WhereSoFar(done + [c], start,
      (if started then query + " AND " else query) + (c.column + " " + ModeText(c.mode) + " $" + NatToString(i)),
      args + [c.value], i + 1, true)
  {
    ClausesSnoc(done, c, start);
    JoinStep(" AND ", Clauses(done, start), Clause(c, i), query);
  }

  /** `build_where_from_filters`: the nested loop over columns and their comparisons. */
  method BuildWhere(filters: Filters, start: nat) returns (query: string, args: seq<SqlValue>)
    ensures query == WhereText(filters, start)
    ensures args == WhereArgs(filters)
  {
    query, args := "", [];
    var started := false;
    var i := start;
    ghost var done: seq<Cond> := [];
    for n := 0 to |filters|
      invariant done == Flatten(filters[..n])
      invariant WhereSoFar(done, start, query, args, i, started)
    {
      var col, filter := filters[n].0, filters[n].1;
      FlattenPrefix(filters, n);
      ghost var prev := done;
      for m := 0 to |filter|
        invariant done == prev + ColumnConds(col, filter[..m])
        invariant WhereSoFar(done, start, query, args, i, started)
      {
        var cmp := filter[m];
        ColumnCondsPrefix(col, filter, m);
        WhereStep(done, Cond(col, cmp.mode, cmp.value), start, query, args, i, started);
        if started {
          query := query + " AND ";
        }
        query := query + (col + " " + ModeText(cmp.mode) + " $" + NatToString(i));
        args := args + [cmp.value];
        started := true;
        i := i + 1;
        done := done + [Cond(col, cmp.mode, cmp.value)];
      }
      assert filter[..|filter|] == filter;
    }
    assert filters[..|filters|] == filters;
  }

  /** The state of `InsertBuilder::build` after its first `i` columns. */
  ghost predicate InsertSoFar(values: Entries<SqlValue>, i: nat, colString: string, argString: string, args: seq<SqlValue>)
  {
    && i <= |values|
    && colString == Join(", ", Keys(values[..i]))
    && argString == Join(", ", Dollars(1, i))
    && args == Values(values[..i])
  }

  lemma DollarsSnoc(from: nat, n: nat)
    ensures Dollars(from, n + 1) == Dollars(from, n) + ["$" + NatToString(from + n)]
  {
  }

  lemma InsertStep(values: Entries<SqlValue>, i: nat, colString: string, argString: string, args: seq<SqlValue>)
    requires i < |values| && InsertSoFar(values, i, colString, argString, args)
    ensures InsertSoFar(values, i + 1,
      (if i + 1 > 1 then colString + ", " else colString) + values[i].0,
      (if i + 1 > 1 then argString + ", " else argString) + ("$" + NatToString(i + 1)),
      args + [values[i].1])
  {
    KeysValuesPrefix(values, i);
    DollarsSnoc(1, i);
    JoinStep(", ", Keys(values[..i]), values[i].0, colString);
    JoinStep(", ", Dollars(1, i), "$" + NatToString(i + 1), argString);
  }

  /** The state of the SET loop of `UpdateBuilder::build` after its first `k` columns. */
  ghost predicate SetSoFar(values: Entries<SqlValue>, k: nat, valueString: string, setArgs: seq<SqlValue>)
  {
    && k <= |values|
    && valueString == (if k == 0 then "" else SetString(values[..k]))
    && setArgs == Values(values[..k])
  }

  lemma SetClausesPrefix(values: Entries<SqlValue>, k: nat)
    requires k < |values|
    ensures SetClauses(values[..k + 1]) == SetClauses(values[..k]) + [values[k].0 + " = $" + NatToString(k + 1)]
  {
  }

  lemma SetStep(values: Entries<SqlValue>, k: nat, valueString: string, setArgs: seq<SqlValue>)
    requires k < |values| && SetSoFar(values, k, valueString, setArgs)
    ensures SetSoFar(values, k + 1,
      (if valueString == "" then valueString + "SET " else valueString + ", ")
        + (values[k].0 + " = $" + NatToString(k + 1)),
      setArgs + [values[k].1])
  {
    var clause := values[k].0 + " = $" + NatToString(k + 1);
    var before := SetClauses(values[..k]);
    SetClausesPrefix(values, k);
    KeysValuesPrefix(values, k);
    if k == 0 {
      JoinStep(", ", before, clause, "");
      assert valueString + "SET " + clause == "SET " + clause;
    } else {
      var acc := Join(", ", before);
      JoinStep(", ", before, clause, acc);
      assert valueString == "SET " + acc && |valueString| >= 4;
      AppendAssoc("SET ", acc, ", ");
      AppendAssoc("SET ", acc + ", ", clause);
    }
  }

  /** Builds a SELECT (plain or aggregate) or a DELETE over one table. */
  class FilteredOperationBuilder {
    var table: string
    var extra: string
    var filters: Filters
    var limit: Option<Int32>

    ghost predicate Valid()
      reads this
    {
      Sorted(filters)
    }

    ghost function State(): FilterState
      reads this
    {
      FilterState(table, extra, filters, limit)
    }

    /** `FilteredOperationBuilder::new`: no filters, no extra, no limit. */
    constructor (table: string)
      ensures Valid()
      ensures State() == FilterState(table, "", [], None)
    {
      this.table := table;
      extra := "";
      filters := [];
      limit := None;
    }

    /** `with_filter`: the column's comparisons become those of `range`, replacing any earlier ones. */
    method WithFilter(column: string, range: Range)
      requires Valid()
      modifies this
      ensures Valid()
      ensures filters == Insert(old(filters), column, RangeComparisons(range))
      ensures table == old(table) && extra == old(extra) && limit == old(limit)
    {
      InsertSorted(filters, column, RangeComparisons(range));
      filters := Insert(filters, column, RangeComparisons(range));
    }

    /** `with_limit`: stored, and never read by `Build`. */
    method WithLimit(limit: Option<Int32>)
      modifies this
      ensures State() == old(State()).(limit := limit)
    {
      this.limit := limit;
    }

    /** `with_extra`: a trusted fragment placed before the closing clause. */
    method WithExtra(extra: string)
      modifies this
      ensures State() == old(State()).(extra := extra)
    {
      this.extra := extra;
    }

    /** `build(op)`: WHERE placeholders start at `$1`; the LIMIT comes from `op` alone. */
    method Build(op: FilteredOperation) returns (sql: string, args: seq<SqlValue>)
      ensures sql == FilteredText(State(), op)
      ensures args == WhereArgs(filters)
    {
      var whereQ, whereArgs := BuildWhere(filters, 1);
      var head := match op
        case Select(None, _) => "SELECT *"
        case Select(Some(agg), _) => "SELECT " + SelectOperationSql(agg) + "(*)"
        case Delete => "DELETE";
      var wherePart := if whereQ != "" then " WHERE " + whereQ else "";
      var extraPart := if extra != "" then " " + extra else "";
      var tail := match op
        case Delete => " RETURNING *"
        case Select(_, lim) => if lim.Some? then " LIMIT " + IntToString(lim.value) else "";
      sql := head + " FROM " + table + wherePart + extraPart + tail + ";";
      args := whereArgs;
    }
  }

  /** Builds a one-row INSERT. */
  class InsertBuilder {
    var table: string
    var extra: string
    var values: Entries<SqlValue>

    ghost predicate Valid()
      reads this
    {
      Sorted(values)
    }

    ghost function State(): InsertState
      reads this
    {
      InsertState(table, extra, values)
    }

    constructor (table: string)
      ensures Valid()
      ensures State() == InsertState(table, "", [])
    {
      this.table := table;
      extra := "";
      values := [];
    }

    /** `with_arg`: the column's value, replacing any earlier one. */
    method WithArg(column: string, value: SqlValue)
      requires Valid()
      modifies this
      ensures Valid()
      ensures values == Insert(old(values), column, value)
      ensures table == old(table) && extra == old(extra)
    {
      InsertSorted(values, column, value);
      values := Insert(values, column, value);
    }

    method WithExtra(extra: string)
      modifies this
      ensures State() == old(State()).(extra := extra)
    {
      this.extra := extra;
    }

    /** `build`: one loop over the columns in order, numbering them from 1. */
    method Build() returns (sql: string, args: seq<SqlValue>)
      ensures sql == InsertText(State())
      ensures args == Values(values)
    {
      args := [];
      sql := "INSERT INTO " + table;
      var colString, argString := "", "";
      for i := 0 to |values|
        invariant InsertSoFar(values, i, colString, argString, args)
      {
        var col, arg := values[i].0, values[i].1;
        InsertStep(values, i, colString, argString, args);
        var argIndex := i + 1;
        if argIndex > 1 {
          colString := colString + ", ";
          argString := argString + ", ";
        }
        colString := colString + col;
        argString := argString + ("$" + NatToString(argIndex));
        args := args + [arg];
      }
      assert values[..|values|] == values;
      sql := sql + " (" + colString + ") VALUES (" + argString + ")";
      if extra != "" {
        sql := sql + (" " + extra);
      }
      sql := sql + " RETURNING *;";
    }
  }

  /** Builds an UPDATE over the table and filters of a wrapped filter builder. */
  class UpdateBuilder {
    var extra: string
    var values: Entries<SqlValue>
    var filters: FilteredOperationBuilder

    ghost predicate Valid()
      reads this, filters
    {
      Sorted(values) && filters.Valid()
    }

    ghost function State(): UpdateState
      reads this, filters
    {
      UpdateState(extra, values, filters.State())
    }

    /** `From<FilteredOperationBuilder>`: takes over the filter builder and copies its extra. */
    constructor From(v: FilteredOperationBuilder)
      requires v.Valid()
      ensures Valid()
      ensures filters == v && State() == UpdateState(v.extra, [], v.State())
    {
      extra := v.extra;
      filters := v;
      values := [];
    }

    /** `with_value`: the column's SET value, replacing any earlier one. */
    method WithValue(column: string, value: SqlValue)
      requires Valid()
      modifies this
      ensures Valid()
      ensures values == Insert(old(values), column, value)
      ensures extra == old(extra) && filters == old(filters)
    {
      InsertSorted(values, column, value);
      values := Insert(values, column, value);
    }

    method WithExtra(extra: string)
      modifies this
      ensures this.extra == extra && values == old(values) && filters == old(filters)
    {
      this.extra := extra;
    }

    /** `build`: an UPDATE when SET values exist, otherwise the filter builder's SELECT. */
    method Build() returns (sql: string, args: seq<SqlValue>)
      ensures sql == UpdateText(State())
      ensures args == UpdateArgs(State())
    {
      if values == [] {
        sql, args := filters.Build(Select(None, None));
        assert Values(values) == [];
        return;
      }
      var setArgs: seq<SqlValue> := [];
      var argIndex := 1;
      var valueString := "";
      for k := 0 to |values|
        invariant argIndex == k + 1
        invariant SetSoFar(values, k, valueString, setArgs)
      {
        var col, arg := values[k].0, values[k].1;
        SetStep(values, k, valueString, setArgs);
        if valueString == "" {
          valueString := valueString + "SET ";
        } else {
          valueString := valueString + ", ";
        }
        valueString := valueString + (col + " = $" + NatToString(argIndex));
        argIndex := argIndex + 1;
        setArgs := setArgs + [arg];
      }
      assert values[..|values|] == values;
      assert valueString == SetString(values) && setArgs == Values(values);
      var filterString, filterArgs := BuildWhere(filters.filters, argIndex);
      ghost var whereText := WhereText(filters.filters, |values| + 1);
      assert filterString == whereText;
      sql := "UPDATE " + filters.table + " " + valueString
        + (if filterString != "" then " WHERE " + filterString else "");
      if extra != "" {
        sql := sql + (" " + extra);
      }
      sql := sql + " RETURNING *;";
      args := setArgs + filterArgs;
      assert sql == "UPDATE " + filters.table + " " + SetString(values) + WherePart(whereText) + ExtraPart(extra) + " RETURNING *;";
    }
  }
}
