/**
 * The builders' `BTreeMap<&'static str, V>`: an association list kept in
 * strictly ascending key order, so that iterating it visits the keys the
 * way the B-tree does. `Insert` is `BTreeMap::insert`: a key that is already
 * present has its value REPLACED.
 */
module OrderedMap {
  import opened Wrappers
  import opened Text

  type Entries<V> = seq<(string, V)>

  function KeySet<V>(m: Entries<V>): set<string>
  {
    if m == [] then {} else {m[0].0} + KeySet(m[1..])
  }

  /** Every key of `m` is strictly above `k`. */
  ghost predicate Above<V>(k: string, m: Entries<V>) {
    forall j :: j in KeySet(m) ==> LexLess(k, j)
  }

  /** Keys strictly ascending, hence pairwise distinct. */
  ghost predicate Sorted<V>(m: Entries<V>) {
    m == [] || (Above(m[0].0, m[1..]) && Sorted(m[1..]))
  }

  function Keys<V>(m: Entries<V>): (ks: seq<string>)
    ensures |ks| == |m|
    ensures forall i :: 0 <= i < |m| ==> ks[i] == m[i].0
  {
    seq(|m|, i requires 0 <= i < |m| => m[i].0)
  }

  function Values<V>(m: Entries<V>): (vs: seq<V>)
    ensures |vs| == |m|
    ensures forall i :: 0 <= i < |m| ==> vs[i] == m[i].1
  {
    seq(|m|, i requires 0 <= i < |m| => m[i].1)
  }

  lemma KeysValuesPrefix<V>(m: Entries<V>, i: nat)
    requires i < |m|
    ensures Keys(m[..i + 1]) == Keys(m[..i]) + [m[i].0]
    ensures Values(m[..i + 1]) == Values(m[..i]) + [m[i].1]
  {
  }

  /** The value stored under `k`, if any. */
  function Get<V>(m: Entries<V>, k: string): Option<V>
  {
    if m == [] then None
    else if m[0].0 == k then Some(m[0].1)
    else Get(m[1..], k)
  }

  /** `BTreeMap::insert`: replace the value of `k`, or add `k` at its ordered position. */
  function Insert<V>(m: Entries<V>, k: string, v: V): Entries<V>
  {
    if m == [] then [(k, v)]
    else if m[0].0 == k then [(k, v)] + m[1..]
    else if LexLess(k, m[0].0) then [(k, v)] + m
    else [m[0]] + Insert(m[1..], k, v)
  }

  lemma {:induction false} KeySetIndex<V>(m: Entries<V>, j: string)
    ensures j in KeySet(m) <==> exists i :: 0 <= i < |m| && m[i].0 == j
  {
    if m != [] {
      KeySetIndex(m[1..], j);
      if j in KeySet(m[1..]) {
        var i :| 0 <= i < |m[1..]| && m[1..][i].0 == j;
        assert m[i + 1].0 == j;
      }
      if j != m[0].0 && exists i :: 0 <= i < |m| && m[i].0 == j {
        var i :| 0 <= i < |m| && m[i].0 == j;
        assert m[1..][i - 1].0 == j;
      }
    }
  }

  /** The recursive Sorted is the pairwise statement: keys strictly ascend with the index. */
  lemma {:induction false} SortedPairwise<V>(m: Entries<V>)
    requires Sorted(m)
    ensures forall i, j :: 0 <= i < j < |m| ==> LexLess(m[i].0, m[j].0)
  {
    if m != [] {
      SortedPairwise(m[1..]);
      forall i, j | 0 <= i < j < |m| ensures LexLess(m[i].0, m[j].0) {
        if i == 0 {
          KeySetIndex(m[1..], m[j].0);
          assert m[1..][j - 1].0 == m[j].0;
        } else {
          assert m[i] == m[1..][i - 1] && m[j] == m[1..][j - 1];
        }
      }
    }
  }

  lemma {:induction false} InsertKeySet<V>(m: Entries<V>, k: string, v: V)
    ensures KeySet(Insert(m, k, v)) == KeySet(m) + {k}
  {
    if m != [] && m[0].0 != k && !LexLess(k, m[0].0) {
      InsertKeySet(m[1..], k, v);
    }
  }

  lemma {:induction false} AboveLower<V>(a: string, b: string, m: Entries<V>)
    requires LexLess(a, b) && Above(b, m)
    ensures Above(a, m)
  {
    forall j | j in KeySet(m) ensures LexLess(a, j) {
      LexTransitive(a, b, j);
    }
  }

  /** Insertion keeps the keys strictly ascending. */
  lemma {:induction false} InsertSorted<V>(m: Entries<V>, k: string, v: V)
    requires Sorted(m)
    ensures Sorted(Insert(m, k, v))
  {
    if m == [] {
    } else if m[0].0 == k {
      assert Insert(m, k, v)[1..] == m[1..];
    } else if LexLess(k, m[0].0) {
      AboveLower(k, m[0].0, m[1..]);
      assert Insert(m, k, v)[1..] == m;
    } else {
      LexTotal(k, m[0].0);
      InsertSorted(m[1..], k, v);
      InsertKeySet(m[1..], k, v);
      assert Insert(m, k, v)[1..] == Insert(m[1..], k, v);
    }
  }

  lemma {:induction false} NotAboveSelf<V>(k: string, m: Entries<V>)
    requires Above(k, m)
    ensures k !in KeySet(m)
  {
    LexIrreflexive(k);
  }

  /** Inserting a present key replaces its entry; a new key adds exactly one entry. */
  lemma {:induction false} InsertLength<V>(m: Entries<V>, k: string, v: V)
    requires Sorted(m)
    ensures |Insert(m, k, v)| == if k in KeySet(m) then |m| else |m| + 1
  {
    if m == [] {
    } else if m[0].0 == k {
    } else if LexLess(k, m[0].0) {
      AboveLower(k, m[0].0, m[1..]);
      NotAboveSelf(k, m[1..]);
    } else {
      InsertLength(m[1..], k, v);
    }
  }

  /** After `Insert(m, k, v)`, `k` maps to `v` and no other key's value has changed. */
  lemma {:induction false} InsertGet<V>(m: Entries<V>, k: string, v: V, j: string)
    ensures Get(Insert(m, k, v), j) == if j == k then Some(v) else Get(m, j)
  {
    if m != [] && m[0].0 != k && !LexLess(k, m[0].0) {
      InsertGet(m[1..], k, v, j);
    }
  }

  /** Inserting the same key twice keeps only the second value: a later registration replaces an earlier one. */
  lemma {:induction false} InsertTwice<V>(m: Entries<V>, k: string, v1: V, v2: V)
    ensures Insert(Insert(m, k, v1), k, v2) == Insert(m, k, v2)
  {
    if m == [] {
    } else if m[0].0 == k {
      assert ([(k, v1)] + m[1..])[1..] == m[1..];
    } else if LexLess(k, m[0].0) {
      assert ([(k, v1)] + m)[1..] == m;
    } else {
      var tail := Insert(m[1..], k, v1);
      assert ([m[0]] + tail)[1..] == tail;
      InsertTwice(m[1..], k, v1, v2);
    }
  }
}
