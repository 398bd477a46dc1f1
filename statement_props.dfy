/**
 * What the statement builder guarantees about the text it produces: every
 * `$n` it writes is numbered in order from `$1` and there are exactly as
 * many as arguments; the WHERE conditions follow the columns in ascending
 * order, each one coming from that column's registered filter; and the
 * documented quirks (replacement on re-registration, the unread limit, the
 * SELECT fallback of an empty update) hold for all inputs.
 */
module StatementProps {
  import opened Wrappers
  import opened Text
  import opened OrderedMap
  import opened Placeholders
  import opened Statement

  /** No column name contains `$`: the builder's names are trusted identifiers. */
  ghost predicate CleanKeys<V>(m: Entries<V>) {
    forall k :: k in KeySet(m) ==> NoDollar(k)
  }

  // ---------------------------------------------------------------- WHERE

  lemma {:induction false} FlattenColumns(f: Filters)
    ensures forall j :: 0 <= j < |Flatten(f)| ==> Flatten(f)[j].column in KeySet(f)
  {
    if f != [] {
      FlattenColumns(f[1..]);
      var a := ColumnConds(f[0].0, f[0].1);
      forall j | 0 <= j < |Flatten(f)| ensures Flatten(f)[j].column in KeySet(f) {
        if j >= |a| {
          assert Flatten(f)[j] == Flatten(f[1..])[j - |a|];
        }
      }
    }
  }

  /** Every rendered condition is one of the comparisons registered for its column. */
  lemma {:induction false} FlattenSource(f: Filters)
    requires Sorted(f)
    ensures forall j :: 0 <= j < |Flatten(f)| ==>
      var c := Flatten(f)[j];
      Get(f, c.column).Some? && Comparison(c.mode, c.value) in Get(f, c.column).value
  {
    if f != [] {
      FlattenSource(f[1..]);
      FlattenColumns(f[1..]);
      var a := ColumnConds(f[0].0, f[0].1);
      forall j | 0 <= j < |Flatten(f)|
        ensures var c := Flatten(f)[j];
          Get(f, c.column).Some? && Comparison(c.mode, c.value) in Get(f, c.column).value
      {
        if j < |a| {
          assert Flatten(f)[j] == a[j];
          assert Comparison(a[j].mode, a[j].value) == f[0].1[j];
        } else {
          var c := Flatten(f[1..])[j - |a|];
          assert Flatten(f)[j] == c;
          NotAboveSelf(f[0].0, f[1..]);
        }
      }
    }
  }

  /** The conditions appear column by column, in ascending column order. */
  lemma {:induction false} FlattenAscending(f: Filters)
    requires Sorted(f)
    ensures forall i, j :: 0 <= i < j < |Flatten(f)| ==>
      Flatten(f)[i].column == Flatten(f)[j].column || LexLess(Flatten(f)[i].column, Flatten(f)[j].column)
  {
    if f != [] {
      FlattenAscending(f[1..]);
      FlattenColumns(f[1..]);
      var a := ColumnConds(f[0].0, f[0].1);
      var b := Flatten(f[1..]);
      assert Flatten(f) == a + b;
      forall i, j | 0 <= i < j < |Flatten(f)|
        ensures Flatten(f)[i].column == Flatten(f)[j].column || LexLess(Flatten(f)[i].column, Flatten(f)[j].column)
      {
        if j >= |a| && i >= |a| {
          assert Flatten(f)[i] == b[i - |a|] && Flatten(f)[j] == b[j - |a|];
        } else if j >= |a| {
          assert Flatten(f)[j] == b[j - |a|];
          assert b[j - |a|].column in KeySet(f[1..]);
        }
      }
    }
  }

  // ---------------------------------------------------------- placeholders

  lemma DigitsNoDollar(s: string)
    requires AllDigits(s)
    ensures NoDollar(s)
  {
  }

  /** Joined items that each hold one placeholder, numbered consecutively, scan as that run of numbers. */
  lemma {:induction false} JoinScan(sep: string, xs: seq<string>, from: nat)
    requires NoDollar(sep) && |sep| > 0 && !IsDigit(sep[0])
    requires forall k :: 0 <= k < |xs| ==> Scan(xs[k]) == [from + k]
    ensures Scan(Join(sep, xs)) == Numbers(from, |xs|)
    decreases |xs|
  {
    if |xs| == 0 {
      assert Join(sep, xs) == [];
    } else if |xs| == 1 {
      assert Join(sep, xs) == xs[0];
    } else {
      var init, last := xs[..|xs| - 1], xs[|xs| - 1];
      JoinScan(sep, init, from);
      var j := Join(sep, init);
      assert Join(sep, xs) == j + sep + last;
      AppendAssoc(j, sep, last);
      assert (sep + last)[0] == sep[0];
      ScanConcat(j, sep + last);
      ScanNoDollarPrefix(sep, last);
      NumbersSplit(from, |xs| - 1, 1);
    }
  }

  /** `$` and a number after text without `$` scans as that one number. */
  lemma PlaceholderAfter(p: string, i: nat)
    requires NoDollar(p)
    ensures Scan(p + ("$" + NatToString(i))) == [i]
  {
    ScanNoDollarPrefix(p, "$" + NatToString(i));
    ScanPlaceholder(i);
  }

  lemma ClauseScan(c: Cond, i: nat)
    requires NoDollar(c.column)
    ensures Scan(Clause(c, i)) == [i]
  {
    var x := c.column + " " + ModeText(c.mode);
    var n := NatToString(i);
    AppendAssoc(x, " ", "$");
    AppendAssoc(x + " ", "$", n);
    assert Clause(c, i) == (x + " ") + ("$" + n);
    NoDollarConcat(c.column, " ");
    NoDollarConcat(c.column + " ", ModeText(c.mode));
    NoDollarConcat(x, " ");
    PlaceholderAfter(x + " ", i);
  }

  /** The WHERE text numbers its placeholders consecutively from `start`, one per argument. */
  lemma WhereTextScan(f: Filters, start: nat)
    requires CleanKeys(f)
    ensures Scan(WhereText(f, start)) == Numbers(start, |WhereArgs(f)|)
  {
    var cs := Flatten(f);
    FlattenColumns(f);
    forall k | 0 <= k < |cs| ensures Scan(Clauses(cs, start)[k]) == [start + k] {
      ClauseScan(cs[k], start + k);
    }
    JoinScan(" AND ", Clauses(cs, start), start);
  }

  lemma WherePartScan(w: string)
    ensures Scan(WherePart(w)) == Scan(w)
    ensures WherePart(w) == [] || WherePart(w)[0] == ' '
  {
    if w != "" {
      ScanNoDollarPrefix(" WHERE ", w);
    }
  }

  lemma ExtraPartScan(extra: string)
    requires NoDollar(extra)
    ensures NoDollar(ExtraPart(extra))
    ensures ExtraPart(extra) == [] || ExtraPart(extra)[0] == ' '
  {
    if extra != "" {
      NoDollarConcat(" ", extra);
    }
  }

  lemma IntToStringNoDollar(n: int)
    ensures NoDollar(IntToString(n))
  {
    var t := NatToString(if n >= 0 then n else -n);
    DigitsNoDollar(t);
    if n < 0 {
      NoDollarConcat("-", t);
    }
  }

  lemma SuffixNoDollar(op: FilteredOperation)
    ensures NoDollar(OperationSuffix(op))
    ensures OperationSuffix(op) == [] || OperationSuffix(op)[0] == ' '
  {
    if op.Select? && op.limit.Some? {
      IntToStringNoDollar(op.limit.value);
      NoDollarConcat(" LIMIT ", IntToString(op.limit.value));
    }
  }

  lemma HeadNoDollar(op: FilteredOperation)
    ensures NoDollar(SelectHead(op))
  {
    match op
    case Select(Some(agg), _) =>
      NoDollarConcat("SELECT ", SelectOperationSql(agg));
      NoDollarConcat("SELECT " + SelectOperationSql(agg), "(*)");
    case _ =>
  }

  /** `Scan(x + y + z)` where neither `y` nor `z` holds a `$` or opens with a digit. */
  lemma ScanTail(x: string, y: string, z: string)
    requires NoDollar(y) && (y == [] || !IsDigit(y[0]))
    requires NoDollar(z) && (z == [] || !IsDigit(z[0]))
    ensures Scan(x + y + z) == Scan(x)
  {
    ScanConcat(x + y, z);
    ScanConcat(x, y);
    ScanNoDollar(y);
    ScanNoDollar(z);
  }

  /**
   * A filtered statement holds exactly the placeholders `$1 … $n`, in this
   * order, where `n` is the number of arguments returned with it.
   */
  lemma FilteredTextPlaceholders(s: FilterState, op: FilteredOperation)
    requires NoDollar(s.table) && NoDollar(s.extra) && CleanKeys(s.filters)
    ensures Scan(FilteredText(s, op)) == Numbers(1, |WhereArgs(s.filters)|)
  {
    var head := SelectHead(op) + " FROM " + s.table;
    HeadNoDollar(op);
    NoDollarConcat(SelectHead(op), " FROM ");
    NoDollarConcat(SelectHead(op) + " FROM ", s.table);
    var w := WherePart(WhereText(s.filters, 1));
    var e := ExtraPart(s.extra);
    var t := OperationSuffix(op);
    WherePartScan(WhereText(s.filters, 1));
    ExtraPartScan(s.extra);
    SuffixNoDollar(op);
    ScanTail(head + w + e, t, ";");
    ScanTail(head + w, e, []);
    assert head + w + e + [] == head + w + e;
    ScanNoDollarPrefix(head, w);
    WhereTextScan(s.filters, 1);
  }

  lemma {:induction false} JoinNoDollar(sep: string, xs: seq<string>)
    requires NoDollar(sep)
    requires forall k :: 0 <= k < |xs| ==> NoDollar(xs[k])
    ensures NoDollar(Join(sep, xs))
    decreases |xs|
  {
    if |xs| > 1 {
      JoinNoDollar(sep, xs[..|xs| - 1]);
      NoDollarConcat(Join(sep, xs[..|xs| - 1]), sep);
      NoDollarConcat(Join(sep, xs[..|xs| - 1]) + sep, xs[|xs| - 1]);
    }
  }

  lemma KeysNoDollar<V>(m: Entries<V>)
    requires CleanKeys(m)
    ensures NoDollar(Join(", ", Keys(m)))
  {
    forall k | 0 <= k < |m| ensures NoDollar(Keys(m)[k]) {
      KeySetIndex(m, m[k].0);
    }
    JoinNoDollar(", ", Keys(m));
  }

  lemma DollarsScan(n: nat)
    ensures Scan(Join(", ", Dollars(1, n))) == Numbers(1, n)
  {
    forall k | 0 <= k < n ensures Scan(Dollars(1, n)[k]) == [1 + k] {
      ScanPlaceholder(1 + k);
    }
    JoinScan(", ", Dollars(1, n), 1);
  }

  lemma InsertHeadNoDollar(table: string, cols: string)
    requires NoDollar(table) && NoDollar(cols)
    ensures NoDollar("INSERT INTO " + table + " (" + cols + ") VALUES (")
  {
    NoDollarConcat("INSERT INTO ", table);
    NoDollarConcat("INSERT INTO " + table, " (");
    NoDollarConcat("INSERT INTO " + table + " (", cols);
    NoDollarConcat("INSERT INTO " + table + " (" + cols, ") VALUES (");
  }

  /** An INSERT holds exactly `$1 … $n`, one per column, in column order. */
  lemma InsertTextPlaceholders(s: InsertState)
    requires NoDollar(s.table) && NoDollar(s.extra) && CleanKeys(s.values)
    ensures Scan(InsertText(s)) == Numbers(1, |s.values|)
  {
    var cols := Join(", ", Keys(s.values));
    KeysNoDollar(s.values);
    var head := "INSERT INTO " + s.table + " (" + cols + ") VALUES (";
    InsertHeadNoDollar(s.table, cols);
    var d := Join(", ", Dollars(1, |s.values|));
    var e := ExtraPart(s.extra);
    ExtraPartScan(s.extra);
    ScanTail(head + d + ")", e, " RETURNING *;");
    ScanTail(head + d, ")", []);
    assert head + d + ")" + [] == head + d + ")";
    ScanNoDollarPrefix(head, d);
    DollarsScan(|s.values|);
  }

  lemma SetClauseScan(col: string, i: nat)
    requires NoDollar(col)
    ensures Scan(col + " = $" + NatToString(i)) == [i]
  {
    var n := NatToString(i);
    assert " = " + "$" == " = $";
    AppendAssoc(col, " = ", "$");
    AppendAssoc(col + " = ", "$", n);
    NoDollarConcat(col, " = ");
    PlaceholderAfter(col + " = ", i);
  }

  lemma KeyClean<V>(m: Entries<V>, k: nat)
    requires CleanKeys(m) && k < |m|
    ensures NoDollar(m[k].0)
  {
    KeySetIndex(m, m[k].0);
  }

  /** The SET list numbers its placeholders from `$1`, one per column. */
  lemma SetStringScan(values: Entries<SqlValue>)
    requires CleanKeys(values)
    ensures Scan(SetString(values)) == Numbers(1, |values|)
  {
    var cs := SetClauses(values);
    forall k | 0 <= k < |values| ensures Scan(cs[k]) == [1 + k] {
      KeyClean(values, k);
      SetClauseScan(values[k].0, k + 1);
    }
    JoinScan(", ", cs, 1);
    ScanNoDollarPrefix("SET ", Join(", ", cs));
  }

  /** `UPDATE table SET … [WHERE …]`: SET placeholders `$1 … $m`, then the WHERE ones from `$m+1`. */
  lemma UpdateBodyPlaceholders(table: string, values: Entries<SqlValue>, f: Filters)
    requires NoDollar(table) && CleanKeys(values) && CleanKeys(f)
    ensures Scan("UPDATE " + table + " " + SetString(values) + WherePart(WhereText(f, |values| + 1)))
      == Numbers(1, |values| + |WhereArgs(f)|)
  {
    var head := "UPDATE " + table + " ";
    NoDollarConcat("UPDATE ", table);
    NoDollarConcat("UPDATE " + table, " ");
    var setText := SetString(values);
    var whereText := WhereText(f, |values| + 1);
    WherePartScan(whereText);
    ScanConcat(head + setText, WherePart(whereText));
    ScanNoDollarPrefix(head, setText);
    SetStringScan(values);
    WhereTextScan(f, |values| + 1);
    NumbersSplit(1, |values|, |WhereArgs(f)|);
  }

  lemma UpdateFormPlaceholders(s: UpdateState)
    requires s.values != []
    requires NoDollar(s.filters.table) && NoDollar(s.extra)
    requires CleanKeys(s.values) && CleanKeys(s.filters.filters)
    ensures Scan(UpdateText(s)) == Numbers(1, |UpdateArgs(s)|)
  {
    var body := "UPDATE " + s.filters.table + " " + SetString(s.values)
      + WherePart(WhereText(s.filters.filters, |s.values| + 1));
    UpdateBodyPlaceholders(s.filters.table, s.values, s.filters.filters);
    ExtraPartScan(s.extra);
    ScanTail(body, ExtraPart(s.extra), " RETURNING *;");
  }

  /**
   * An update statement holds exactly `$1 … $n` in order, with `n` the number
   * of its arguments: the SET placeholders first, the WHERE placeholders
   * continuing after them; without SET values, those of the plain SELECT.
   */
  lemma UpdateTextPlaceholders(s: UpdateState)
    requires NoDollar(s.filters.table) && NoDollar(s.extra) && NoDollar(s.filters.extra)
    requires CleanKeys(s.values) && CleanKeys(s.filters.filters)
    ensures Scan(UpdateText(s)) == Numbers(1, |UpdateArgs(s)|)
  {
    if s.values == [] {
      FilteredTextPlaceholders(s.filters, Select(None, None));
    } else {
      UpdateFormPlaceholders(s);
    }
  }

  // ---------------------------------------------------------------- quirks

  /** The builder's stored limit never reaches the text: only the operation's limit does. */
  lemma LimitNeverRendered(s: FilterState, limit: Option<Int32>, op: FilteredOperation)
    ensures FilteredText(s.(limit := limit), op) == FilteredText(s, op)
  {
  }

  /** An update without SET values is the plain SELECT of its filters, whatever its own extra is. */
  lemma EmptyUpdateIsSelect(s: UpdateState, extra: string)
    requires s.values == []
    ensures UpdateText(s.(extra := extra)) == FilteredText(s.filters, Select(None, None))
    ensures UpdateArgs(s) == WhereArgs(s.filters.filters)
  {
  }

  /** Registering a column a second time discards the first range entirely. */
  lemma RefilterReplaces(f: Filters, column: string, first: Range, second: Range)
    ensures Insert(Insert(f, column, RangeComparisons(first)), column, RangeComparisons(second))
      == Insert(f, column, RangeComparisons(second))
  {
    InsertTwice(f, column, RangeComparisons(first), RangeComparisons(second));
  }
}
