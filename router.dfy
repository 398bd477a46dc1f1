/**
 * The first-match route table of the HTTP layer. Each entry pairs a compiled
 * pattern with a converter from its captured parameters to a typed route;
 * `Test` tries the entries in registration order and answers with the first
 * converter that produces a route.
 *
 * A compiled pattern is a `Matcher`: for a string it gives the capture groups
 * of a match (group 0, the whole match, first; `None` for a group that took
 * no part in the match), or `None` when the string does not match.
 */
module Router {
  import opened Wrappers

  type Matcher = string -> Option<seq<Option<string>>>

  type Converter<T> = seq<string> -> Option<T>

  datatype RouteEntry<T> = RouteEntry(matcher: Matcher, converter: Converter<T>)

  /** The values of the groups that took part in the match, in group order. */
  function Participating(groups: seq<Option<string>>): (r: seq<string>)
    ensures |r| <= |groups|
  {
    if groups == [] then []
    else
      var last := groups[|groups| - 1];
      Participating(groups[..|groups| - 1]) + (if last.Some? then [last.value] else [])
  }

  /** When every group took part, all their values are kept, in order. */
  lemma {:induction false} ParticipatingAll(groups: seq<Option<string>>)
    requires forall i :: 0 <= i < |groups| ==> groups[i].Some?
    ensures |Participating(groups)| == |groups|
    ensures forall i :: 0 <= i < |groups| ==> Participating(groups)[i] == groups[i].value
  {
    if groups != [] {
      var init := groups[..|groups| - 1];
      assert forall i :: 0 <= i < |init| ==> init[i] == groups[i];
      ParticipatingAll(init);
    }
  }

  /** When no group took part, nothing is kept. */
  lemma {:induction false} ParticipatingNone(groups: seq<Option<string>>)
    requires forall i :: 0 <= i < |groups| ==> groups[i].None?
    ensures Participating(groups) == []
  {
    if groups != [] {
      var init := groups[..|groups| - 1];
      assert forall i :: 0 <= i < |init| ==> init[i] == groups[i];
      ParticipatingNone(init);
    }
  }

  /** Every kept value is the value of some group. */
  lemma {:induction false} ParticipatingFrom(groups: seq<Option<string>>)
    ensures forall j :: 0 <= j < |Participating(groups)| ==>
      exists i :: 0 <= i < |groups| && groups[i] == Some(Participating(groups)[j])
  {
    if groups == [] {
      assert Participating(groups) == [];
    } else {
      var init := groups[..|groups| - 1];
      var p := Participating(init);
      var last := groups[|groups| - 1];
      var r := Participating(groups);
      assert r == p + (if last.Some? then [last.value] else []);
      ParticipatingFrom(init);
      assert forall i :: 0 <= i < |init| ==> init[i] == groups[i];
      forall j | 0 <= j < |r| ensures exists i :: 0 <= i < |groups| && groups[i] == Some(r[j]) {
        if j < |p| {
          var i :| 0 <= i < |init| && init[i] == Some(p[j]);
          assert groups[i] == Some(r[j]);
        } else {
          assert groups[|groups| - 1] == Some(r[j]);
        }
      }
    }
  }

  /**
   * `idx` lists, in increasing order, exactly the positions from `from` on
   * whose group took part, and `r` holds those groups' values in that order.
   */
  ghost predicate Picks(groups: seq<Option<string>>, from: nat, idx: seq<int>, r: seq<string>) {
    && |idx| == |r|
    && (forall j :: 0 <= j < |idx| ==> from <= idx[j] < |groups| && groups[idx[j]] == Some(r[j]))
    && (forall j, k :: 0 <= j < k < |idx| ==> idx[j] < idx[k])
    && (forall i :: from <= i < |groups| && groups[i].Some? ==> i in idx)
  }

  /** The kept values are exactly the values of the groups that took part, in group order. */
  lemma {:induction false} ParticipatingPicks(groups: seq<Option<string>>)
    ensures exists idx :: Picks(groups, 0, idx, Participating(groups))
  {
    if groups == [] {
      assert Picks(groups, 0, [], Participating(groups));
    } else {
      var init := groups[..|groups| - 1];
      var last := groups[|groups| - 1];
      ParticipatingPicks(init);
      var idx0 :| Picks(init, 0, idx0, Participating(init));
      assert Participating(groups) == Participating(init) + (if last.Some? then [last.value] else []);
      if last.Some? {
        PicksSnocSome(groups, idx0, Participating(init));
      } else {
        PicksSnocNone(groups, idx0, Participating(init));
      }
    }
  }

  /** A last group that took part is picked after all earlier ones. */
  lemma PicksSnocSome(groups: seq<Option<string>>, idx0: seq<int>, p: seq<string>)
    requires groups != [] && groups[|groups| - 1].Some?
    requires Picks(groups[..|groups| - 1], 0, idx0, p)
    ensures Picks(groups, 0, idx0 + [|groups| - 1], p + [groups[|groups| - 1].value])
  {
    var n := |groups|;
    var init := groups[..n - 1];
    var idx := idx0 + [n - 1];
    var r := p + [groups[n - 1].value];
    forall j | 0 <= j < |idx| ensures 0 <= idx[j] < n && groups[idx[j]] == Some(r[j]) {
      if j < |idx0| {
        assert init[idx0[j]] == groups[idx0[j]];
      }
    }
    forall i | 0 <= i < n && groups[i].Some? ensures i in idx {
      if i < n - 1 {
        assert init[i] == groups[i];
      }
    }
  }

  /** A last group that took no part is not picked. */
  lemma PicksSnocNone(groups: seq<Option<string>>, idx0: seq<int>, p: seq<string>)
    requires groups != [] && groups[|groups| - 1].None?
    requires Picks(groups[..|groups| - 1], 0, idx0, p)
    ensures Picks(groups, 0, idx0, p + [])
  {
    var n := |groups|;
    var init := groups[..n - 1];
    assert p + [] == p;
    forall j | 0 <= j < |idx0| ensures groups[idx0[j]] == Some(p[j]) {
      assert init[idx0[j]] == groups[idx0[j]];
    }
    forall i | 0 <= i < n && groups[i].Some? ensures i in idx0 {
      assert init[i] == groups[i];
    }
  }

  /** Dropping the first group shifts every position by one. */
  lemma PicksShift(groups: seq<Option<string>>, r: seq<string>)
    requires groups != []
    requires exists idx :: Picks(groups[1..], 0, idx, r)
    ensures exists idx :: Picks(groups, 1, idx, r)
  {
    var idx0 :| Picks(groups[1..], 0, idx0, r);
    var idx := seq(|idx0|, j requires 0 <= j < |idx0| => idx0[j] + 1);
    forall i | 1 <= i < |groups| && groups[i].Some? ensures i in idx {
      assert groups[1..][i - 1] == groups[i];
      var j :| 0 <= j < |idx0| && idx0[j] == i - 1;
      assert idx[j] == i;
    }
    assert Picks(groups, 1, idx, r);
  }

  /** The groups after group 0 that took part, in order, are what `Participating` keeps of them. */
  lemma AfterFirstPicks(groups: seq<Option<string>>, rest: seq<Option<string>>)
    requires rest == if groups == [] then [] else groups[1..]
    ensures exists idx :: Picks(groups, 1, idx, Participating(rest))
  {
    if groups == [] {
      assert Participating(rest) == [];
      assert Picks(groups, 1, [], Participating(rest));
    } else {
      ParticipatingPicks(groups[1..]);
      PicksShift(groups, Participating(groups[1..]));
    }
  }

  /** The positions of two picks agree up to the shorter one's length. */
  lemma {:induction false} PicksSamePrefix(groups: seq<Option<string>>, from: nat, idx1: seq<int>, r1: seq<string>, idx2: seq<int>, r2: seq<string>, n: nat)
    requires Picks(groups, from, idx1, r1) && Picks(groups, from, idx2, r2)
    requires n <= |idx1| && n <= |idx2|
    ensures idx1[..n] == idx2[..n]
  {
    if n > 0 {
      PicksSamePrefix(groups, from, idx1, r1, idx2, r2, n - 1);
      var a, b := idx1[n - 1], idx2[n - 1];
      if a < b {
        assert false;
      } else if b < a {
        assert false;
      }
    }
  }

  /** At most one list of values is picked from a list of groups. */
  lemma PicksUnique(groups: seq<Option<string>>, from: nat, idx1: seq<int>, r1: seq<string>, idx2: seq<int>, r2: seq<string>)
    requires Picks(groups, from, idx1, r1) && Picks(groups, from, idx2, r2)
    ensures r1 == r2
  {
    if |idx1| < |idx2| {
      var b := idx2[|idx1|];
      var k :| 0 <= k < |idx1| && idx1[k] == b;
      PicksSamePrefix(groups, from, idx1, r1, idx2, r2, |idx1|);
      assert false;
    } else if |idx2| < |idx1| {
      var a := idx1[|idx2|];
      var k :| 0 <= k < |idx2| && idx2[k] == a;
      PicksSamePrefix(groups, from, idx1, r1, idx2, r2, |idx2|);
      assert false;
    } else {
      PicksSamePrefix(groups, from, idx1, r1, idx2, r2, |idx1|);
      assert idx1 == idx1[..|idx1|] && idx2 == idx2[..|idx2|];
      forall j | 0 <= j < |r1| ensures r1[j] == r2[j] {
        assert groups[idx1[j]] == Some(r1[j]) && groups[idx2[j]] == Some(r2[j]);
      }
    }
  }

  /** What `get_matches` keeps of a match: the groups after group 0 that took part, in order. */
  lemma AfterFirst(groups: seq<Option<string>>, rest: seq<Option<string>>)
    requires rest == if groups == [] then [] else groups[1..]
    ensures |groups| > 0 ==> |Participating(rest)| < |groups|
    ensures |groups| > 0 && (forall i :: 1 <= i < |groups| ==> groups[i].Some?) ==>
      |Participating(rest)| == |groups| - 1 && forall i :: 1 <= i < |groups| ==> Participating(rest)[i - 1] == groups[i].value
    ensures forall j :: 0 <= j < |Participating(rest)| ==> exists i :: 1 <= i < |groups| && groups[i] == Some(Participating(rest)[j])
    ensures exists idx :: Picks(groups, 1, idx, Participating(rest))
  {
    AfterFirstPicks(groups, rest);
    AfterFirstFrom(groups, rest);
    AfterFirstAll(groups, rest);
  }

  /** Every value kept after group 0 is the value of some group after group 0. */
  lemma AfterFirstFrom(groups: seq<Option<string>>, rest: seq<Option<string>>)
    requires rest == if groups == [] then [] else groups[1..]
    ensures forall j :: 0 <= j < |Participating(rest)| ==> exists i :: 1 <= i < |groups| && groups[i] == Some(Participating(rest)[j])
  {
    var r := Participating(rest);
    ParticipatingFrom(rest);
    forall j | 0 <= j < |r| ensures exists i :: 1 <= i < |groups| && groups[i] == Some(r[j]) {
      var k :| 0 <= k < |rest| && rest[k] == Some(r[j]);
      assert groups[k + 1] == rest[k];
    }
  }

  /** When every group after group 0 took part, all their values are kept, in order. */
  lemma AfterFirstAll(groups: seq<Option<string>>, rest: seq<Option<string>>)
    requires rest == if groups == [] then [] else groups[1..]
    ensures |groups| > 0 ==> |Participating(rest)| < |groups|
    ensures |groups| > 0 && (forall i :: 1 <= i < |groups| ==> groups[i].Some?) ==>
      |Participating(rest)| == |groups| - 1 && forall i :: 1 <= i < |groups| ==> Participating(rest)[i - 1] == groups[i].value
  {
    if |groups| > 0 && forall i :: 1 <= i < |groups| ==> groups[i].Some? {
      assert forall i :: 0 <= i < |rest| ==> rest[i] == groups[i + 1];
      ParticipatingAll(rest);
    }
  }

  /** `get_matches`: no match gives None; otherwise the participating groups after group 0. */
  function GetMatches(m: Matcher, s: string): (r: Option<seq<string>>)
    ensures r.None? <==> m(s).None?
    ensures r.Some? && |m(s).value| > 0 ==> |r.value| < |m(s).value|
    ensures r.Some? && |m(s).value| > 0 && (forall i :: 1 <= i < |m(s).value| ==> m(s).value[i].Some?) ==>
      |r.value| == |m(s).value| - 1 && forall i :: 1 <= i < |m(s).value| ==> r.value[i - 1] == m(s).value[i].value
    ensures r.Some? ==> forall j :: 0 <= j < |r.value| ==> exists i :: 1 <= i < |m(s).value| && m(s).value[i] == Some(r.value[j])
    ensures r.Some? ==> exists idx :: Picks(m(s).value, 1, idx, r.value)
  {
    match m(s)
    case None => None
    case Some(groups) =>
      var rest := if groups == [] then [] else groups[1..];
      AfterFirst(groups, rest);
      Some(Participating(rest))
  }

  /** The picked values characterise the answer: any list picked from groups 1.. is what `get_matches` returns. */
  lemma GetMatchesUnique(m: Matcher, s: string, idx: seq<int>, r: seq<string>)
    requires m(s).Some? && Picks(m(s).value, 1, idx, r)
    ensures GetMatches(m, s) == Some(r)
  {
    var idx' :| Picks(m(s).value, 1, idx', GetMatches(m, s).value);
    PicksUnique(m(s).value, 1, idx', GetMatches(m, s).value, idx, r);
  }

  /** A group that took no part between two that did is skipped; the others keep their order. */
  lemma GetMatchesSkipsGap(m: Matcher, s: string)
    requires m(s) == Some([Some("x"), Some("a"), None, Some("b")])
    ensures GetMatches(m, s) == Some(["a", "b"])
  {
    GetMatchesUnique(m, s, [1, 3], ["a", "b"]);
  }

  /** One entry tried on its own: match, then convert. */
  function Attempt<T>(e: RouteEntry<T>, route: string): Option<T>
  {
    match GetMatches(e.matcher, route)
    case None => None
    case Some(params) => e.converter(params)
  }

  /** The fold of `test`: once a route has been found it is carried to the end unchanged. */
  function TestFrom<T>(entries: seq<RouteEntry<T>>, route: string, acc: Option<T>): Option<T>
  {
    if entries == [] then acc
    else TestFrom(entries[1..], route, if acc.Some? then acc else Attempt(entries[0], route))
  }

  /** Entry `i` is the first that both matches and converts. */
  ghost predicate FirstHit<T>(entries: seq<RouteEntry<T>>, route: string, i: int) {
    && 0 <= i < |entries|
    && Attempt(entries[i], route).Some?
    && forall j :: 0 <= j < i ==> Attempt(entries[j], route).None?
  }

  lemma {:induction false} TestFromFound<T>(entries: seq<RouteEntry<T>>, route: string, x: T)
    ensures TestFrom(entries, route, Some(x)) == Some(x)
  {
    if entries != [] {
      TestFromFound(entries[1..], route, x);
    }
  }

  /**
   * The fold finds the first entry that matches and converts: it answers
   * with that entry's route, and with None exactly when no entry does.
   */
  lemma {:induction false} TestFromFirstHit<T>(entries: seq<RouteEntry<T>>, route: string)
    ensures TestFrom(entries, route, None).Some? <==> exists i :: 0 <= i < |entries| && Attempt(entries[i], route).Some?
    ensures forall i :: FirstHit(entries, route, i) ==> TestFrom(entries, route, None) == Attempt(entries[i], route)
  {
    if entries != [] {
      var a := Attempt(entries[0], route);
      if a.Some? {
        TestFromFound(entries[1..], route, a.value);
        assert Attempt(entries[0], route).Some?;
        forall i | FirstHit(entries, route, i) ensures i == 0 {
        }
      } else {
        var tail := entries[1..];
        TestFromFirstHit(tail, route);
        assert forall i :: 0 <= i < |tail| ==> tail[i] == entries[i + 1];
        forall i | FirstHit(entries, route, i)
          ensures TestFrom(entries, route, None) == Attempt(entries[i], route)
        {
          assert i > 0;
          assert FirstHit(tail, route, i - 1);
        }
        if exists i :: 0 <= i < |entries| && Attempt(entries[i], route).Some? {
          var i :| 0 <= i < |entries| && Attempt(entries[i], route).Some?;
          assert Attempt(tail[i - 1], route).Some?;
        }
      }
    }
  }

  /** Appending an entry changes an answer only where every earlier entry failed. */
  lemma {:induction false} TestFromAppend<T>(entries: seq<RouteEntry<T>>, e: RouteEntry<T>, route: string, acc: Option<T>)
    ensures TestFrom(entries + [e], route, acc) ==
      var before := TestFrom(entries, route, acc);
      if before.Some? then before else Attempt(e, route)
  {
    if entries == [] {
      assert [e][1..] == [];
    } else {
      assert (entries + [e])[1..] == entries[1..] + [e];
      TestFromAppend(entries[1..], e, route, if acc.Some? then acc else Attempt(entries[0], route));
    }
  }

  /** `add_route`'s converter: the captured parameters are ignored and the route is always produced. */
  function Always<T>(v: T): (c: Converter<T>)
    ensures forall params :: c(params) == Some(v)
  {
    params => Some(v)
  }

  /** `RouteParser`: the entries, in registration order. */
  class RouteParser<T> {
    var routes: seq<RouteEntry<T>>

    /** `RouteParser::default`: no entries. */
    constructor ()
      ensures routes == []
    {
      routes := [];
    }

    /** `add_route_with_params`: the entry goes last, after every earlier one. */
    method AddRouteWithParams(m: Matcher, converter: Converter<T>)
      modifies this
      ensures routes == old(routes) + [RouteEntry(m, converter)]
    {
      routes := routes + [RouteEntry(m, converter)];
    }

    /** `add_route`: an entry whose converter always yields `v`. */
    method AddRoute(m: Matcher, v: T)
      modifies this
      ensures routes == old(routes) + [RouteEntry(m, Always(v))]
    {
      AddRouteWithParams(m, Always(v));
    }

    /** `test`: the route of the first entry that matches and converts; None when there is none. */
    function Test(route: string): (r: Option<T>)
      reads this
      ensures r.Some? <==> exists i :: 0 <= i < |routes| && Attempt(routes[i], route).Some?
      ensures forall i :: FirstHit(routes, route, i) ==> r == Attempt(routes[i], route)
    {
      TestFromFirstHit(routes, route);
      TestFrom(routes, route, None)
    }
  }

  /** A router with no entries recognises nothing. */
  lemma EmptyRouterNone<T>(route: string)
    ensures TestFrom<T>([], route, None) == None
  {
  }

  /** Registering a route never changes what an earlier route already answers. */
  lemma EarlierEntriesKeepPriority<T>(entries: seq<RouteEntry<T>>, e: RouteEntry<T>, route: string)
    requires TestFrom(entries, route, None).Some?
    ensures TestFrom(entries + [e], route, None) == TestFrom(entries, route, None)
  {
    TestFromAppend(entries, e, route, None);
  }

  /** An entry that matches but whose converter refuses does not stop the search. */
  lemma RefusingEntrySkipped<T>(e: RouteEntry<T>, rest: seq<RouteEntry<T>>, route: string)
    requires GetMatches(e.matcher, route).Some? && Attempt(e, route).None?
    ensures TestFrom([e] + rest, route, None) == TestFrom(rest, route, None)
  {
    assert ([e] + rest)[1..] == rest;
  }

  /** The routes of the usage example. */
  datatype ExampleRoute = Users

  /** The compiled form of `^/users$`: the whole string, and nothing else, matches. */
  function UsersPattern(): (m: Matcher)
    ensures forall s :: m(s).Some? <==> s == "/users"
  {
    s => if s == "/users" then Some([Some(s)]) else None
  }

  /** The usage example: `/users` is recognised as `Users`, `/user` is not recognised. */
  method UsersExample() returns (hit: Option<ExampleRoute>, miss: Option<ExampleRoute>)
    ensures hit == Some(Users)
    ensures miss == None
  {
    var router := new RouteParser<ExampleRoute>();
    router.AddRoute(UsersPattern(), Users);
    assert router.routes == [RouteEntry(UsersPattern(), Always(Users))];
    assert FirstHit(router.routes, "/users", 0);
    hit := router.Test("/users");
    miss := router.Test("/user");
  }
}
