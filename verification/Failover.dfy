/** Failover along a route's targets. */
module Failover {
  // Between attempts breakers open and close and slots are taken and freed; for strategies whose
  // order does not depend on that, the targets are visited in strictly increasing rank all the
  // same.

  import opened GoText
  import opened Accounts
  import opened Sorting
  import opened TargetSelection
  import Ranges

  /** Strategies whose order is fixed for a request. */
  predicate OrderStatic(route: Route, q: Request) {
    TrimSpace(route.strategy) == "" || TrimSpace(route.strategy) == "priority" || (TrimSpace(route.strategy) == "sticky" && q.session != "")
  }

  /** The rank of a target in such an order. */
  predicate Precedes(s: Scheduler, route: Route, q: Request, a: Candidate, b: Candidate) {
    if TrimSpace(route.strategy) == "" then a.index < b.index
    else if TrimSpace(route.strategy) == "priority" then ByPriority()(a, b)
    else ByScore(s, q)(a, b)
  }

  lemma StaticOrder(s: Scheduler, q: Request)
    ensures WeakOrder(ByPriority()) && WeakOrder(ByScore(s, q))
  {
    hide Score;
  }

  /** Ranks are total on different positions, and transitive. */
  lemma PrecedesOrder(s: Scheduler, route: Route, q: Request, a: Candidate, b: Candidate, c: Candidate)
    ensures a.index != b.index ==> Precedes(s, route, q, a, b) || Precedes(s, route, q, b, a)
    ensures Precedes(s, route, q, a, b) && Precedes(s, route, q, b, c) ==> Precedes(s, route, q, a, c)
    ensures !Precedes(s, route, q, a, a)
  {
    hide Score, TrimSpace;
  }

  // ---- Candidates of a route ----------------------------------------------------------------

  /** Candidates stand at their own positions, with their own keys. */
  lemma {:induction false} CandidatesAre(s: Scheduler, route: Route, q: Request, excluded: set<string>, n: nat)
    requires n <= |route.targets|
    ensures var cs := Candidates(s, route, q, excluded, n);
      (forall c :: c in cs ==> c.index < n && Offer(s, route, c.index, q) == Some(c) && c.key !in excluded)
      && forall i, j :: 0 <= i < j < |cs| ==> cs[i].index < cs[j].index
  {
    if n > 0 {
      hide Offer, TargetKey;
      CandidatesAre(s, route, q, excluded, n - 1);
      if Offer(s, route, n - 1, q).Some? { OfferAt(s, route, n - 1, q); }
    }
  }

  lemma {:induction false} OffersAreCandidates(s: Scheduler, route: Route, q: Request, excluded: set<string>, n: nat, i: nat)
    requires i < n <= |route.targets| && Offer(s, route, i, q).Some? && TargetKey(i, route.targets[i]) !in excluded
    ensures Offer(s, route, i, q).value in Candidates(s, route, q, excluded, n)
  {
    hide Offer, TargetKey;
    if i < n - 1 { OffersAreCandidates(s, route, q, excluded, n - 1, i); }
  }

  /** In a static order the candidates come by rank. */
  lemma OrderedByRank(s: Scheduler, w: World, route: Route, q: Request, cs: seq<Candidate>)
    requires OrderStatic(route, q) && forall i, j :: 0 <= i < j < |cs| ==> cs[i].index < cs[j].index
    ensures var os := Ordered(s, w, q, route.strategy, cs);
      forall i, j :: 0 <= i < j < |os| ==> !Precedes(s, route, q, os[j], os[i])
  {
    StaticOrder(s, q);
    SortBySorts(cs, ByPriority());
    SortBySorts(cs, ByScore(s, q));
    hide TrimSpace, Score;
  }

  // ---- One selection ----------------------------------------------------------------------------

  /** Everything up to the rank of `c` that could serve the request is excluded. */
  predicate DoneWith(s: Scheduler, route: Route, q: Request, excluded: set<string>, c: Candidate) {
    forall i: nat :: i < |route.targets| && Offer(s, route, i, q).Some? && !Precedes(s, route, q, c, Offer(s, route, i, q).value) ==>
      TargetKey(i, route.targets[i]) in excluded
  }

  lemma SelectedIsOffered(s: Scheduler, w: World, route: Route, q: Request, excluded: set<string>)
    requires TryTargets(s, w, route, q, excluded).selected.Some?
    ensures var c := TryTargets(s, w, route, q, excluded).selected.value;
      c.index < |route.targets| && Offer(s, route, c.index, q) == Some(c) && c.key !in excluded && Takes(w, q, c)
      && c.key == TargetKey(c.index, route.targets[c.index])
  {
    hide ResolveRequested, Compatible, TargetKey, Ordered, Candidates;
    var cs := Candidates(s, route, q, excluded, |route.targets|);
    CandidatesAre(s, route, q, excluded, |route.targets|);
    OrderedKeeps(s, w, q, route.strategy, cs);
    var c := TryTargets(s, w, route, q, excluded).selected.value;
    assert c in cs;
  }

  /** After a selection, nothing of the same or an earlier rank can be selected again. */
  lemma SelectionExcludes(s: Scheduler, w: World, route: Route, q: Request, excluded: set<string>)
    requires OrderStatic(route, q) && TryTargets(s, w, route, q, excluded).selected.Some?
    ensures var o := TryTargets(s, w, route, q, excluded);
      DoneWith(s, route, q, o.excluded + {o.selected.value.key}, o.selected.value)
  {
    hide Candidates, Ordered, Precedes, Offer, TargetKey, OrderStatic, Incapable;
    var o := TryTargets(s, w, route, q, excluded);
    var cs := Candidates(s, route, q, excluded, |route.targets|);
    var os := Ordered(s, w, q, route.strategy, cs);
    var c := o.selected.value;
    CandidatesAre(s, route, q, excluded, |route.targets|);
    OrderedByRank(s, w, route, q, cs);
    OrderedKeeps(s, w, q, route.strategy, cs);
    SelectedIsOffered(s, w, route, q, excluded);
    var k := FirstTaken(w, q, os);
    forall i: nat | i < |route.targets| && Offer(s, route, i, q).Some? && !Precedes(s, route, q, c, Offer(s, route, i, q).value)
      ensures TargetKey(i, route.targets[i]) in o.excluded + {c.key}
    {
      var d := Offer(s, route, i, q).value;
      if TargetKey(i, route.targets[i]) !in excluded {
        OffersAreCandidates(s, route, q, excluded, |route.targets|, i);
        EarlierIsSkipped(s, route, q, os, k, d);
        OfferAt(s, route, i, q);
      }
    }
  }

  lemma OfferAt(s: Scheduler, route: Route, i: nat, q: Request)
    requires i < |route.targets| && Offer(s, route, i, q).Some?
    ensures Offer(s, route, i, q).value.index == i && Offer(s, route, i, q).value.key == TargetKey(i, route.targets[i])
  {
    hide ResolveRequested, Compatible, TargetKey;
  }

  /** In a list ordered by rank, what does not come after position k is at k or before. */
  lemma EarlierIsSkipped(s: Scheduler, route: Route, q: Request, os: seq<Candidate>, k: nat, d: Candidate)
    requires k < |os| && d in os && !Precedes(s, route, q, os[k], d)
    requires forall i, j :: 0 <= i < j < |os| ==> !Precedes(s, route, q, os[j], os[i])
    requires forall c :: c in os ==> c.index < |route.targets| && Offer(s, route, c.index, q) == Some(c)
    ensures d.key == os[k].key || d.key in set i | 0 <= i < k :: os[i].key
  {
    var j :| 0 <= j < |os| && os[j] == d;
    if j > k {
      PrecedesOrder(s, route, q, os[k], d, d);
      assert os[k].index == d.index;
    }
  }

  /** The next selection has a later rank. */
  lemma LaterSelection(s: Scheduler, w: World, route: Route, q: Request, excluded: set<string>, c: Candidate)
    requires DoneWith(s, route, q, excluded, c) && TryTargets(s, w, route, q, excluded).selected.Some?
    ensures Precedes(s, route, q, c, TryTargets(s, w, route, q, excluded).selected.value)
  {
    SelectedIsOffered(s, w, route, q, excluded);
  }

  // ---- Whole requests --------------------------------------------------------------------------------

  /** The targets tried when every attempt fails and may be retried: one world per attempt. */
  function Tried(s: Scheduler, route: Route, q: Request, excluded: set<string>, worlds: seq<World>): seq<Candidate>
    decreases |worlds|
  {
    if |worlds| == 0 then []
    else
      var o := TryTargets(s, worlds[0], route, q, excluded);
      if o.selected.None? then []
      else [o.selected.value] + Tried(s, route, q, o.excluded + {o.selected.value.key}, worlds[1..])
  }

  predicate Increasing(s: Scheduler, route: Route, q: Request, cs: seq<Candidate>) {
    forall i, j :: 0 <= i < j < |cs| ==> Precedes(s, route, q, cs[i], cs[j])
  }

  lemma {:induction false} TriedAfter(s: Scheduler, route: Route, q: Request, excluded: set<string>, worlds: seq<World>, c: Candidate)
    requires OrderStatic(route, q) && DoneWith(s, route, q, excluded, c)
    ensures Increasing(s, route, q, [c] + Tried(s, route, q, excluded, worlds))
    decreases |worlds|
  {
    hide Precedes, DoneWith, TryTargets, TrimSpace;
    var cs := Tried(s, route, q, excluded, worlds);
    if |cs| > 0 {
      var o := TryTargets(s, worlds[0], route, q, excluded);
      var d := o.selected.value;
      SelectionExcludes(s, worlds[0], route, q, excluded);
      LaterSelection(s, worlds[0], route, q, excluded, c);
      TriedAfter(s, route, q, o.excluded + {d.key}, worlds[1..], d);
      var rest := [d] + Tried(s, route, q, o.excluded + {d.key}, worlds[1..]);
      assert cs == rest;
      forall i, j | 0 <= i < j < |[c] + cs| ensures Precedes(s, route, q, ([c] + cs)[i], ([c] + cs)[j]) {
        if i == 0 && j > 1 {
          assert Precedes(s, route, q, rest[0], rest[j - 1]);
          PrecedesOrder(s, route, q, c, d, rest[j - 1]);
        } else if i > 0 {
          assert Precedes(s, route, q, rest[i - 1], rest[j - 1]);
        }
      }
    }
  }

  /** Targets are tried in strictly increasing rank, whatever happens between attempts. */
  lemma TriedInOrder(s: Scheduler, route: Route, q: Request, excluded: set<string>, worlds: seq<World>)
    requires OrderStatic(route, q)
    ensures Increasing(s, route, q, Tried(s, route, q, excluded, worlds))
  {
    hide Precedes, DoneWith, TryTargets, TrimSpace;
    var cs := Tried(s, route, q, excluded, worlds);
    if |cs| > 0 {
      var o := TryTargets(s, worlds[0], route, q, excluded);
      SelectionExcludes(s, worlds[0], route, q, excluded);
      TriedAfter(s, route, q, o.excluded + {o.selected.value.key}, worlds[1..], o.selected.value);
    }
  }

  function Positions(cs: seq<Candidate>): set<int> {
    set i | 0 <= i < |cs| :: cs[i].index
  }

  predicate Offered(s: Scheduler, route: Route, q: Request, c: Candidate) {
    c.index < |route.targets| && Offer(s, route, c.index, q) == Some(c)
  }

  lemma {:induction false} TriedAreOffered(s: Scheduler, route: Route, q: Request, excluded: set<string>, worlds: seq<World>)
    ensures forall c :: c in Tried(s, route, q, excluded, worlds) ==> Offered(s, route, q, c)
    decreases |worlds|
  {
    if |worlds| > 0 && TryTargets(s, worlds[0], route, q, excluded).selected.Some? {
      SelectedIsOffered(s, worlds[0], route, q, excluded);
      hide TryTargets, Offer;
      var o := TryTargets(s, worlds[0], route, q, excluded);
      TriedAreOffered(s, route, q, o.excluded + {o.selected.value.key}, worlds[1..]);
    }
  }

  /** What is excluded once is never tried again. */
  lemma {:induction false} TriedUnexcluded(s: Scheduler, route: Route, q: Request, excluded: set<string>, worlds: seq<World>)
    ensures forall c :: c in Tried(s, route, q, excluded, worlds) ==> c.key !in excluded
    decreases |worlds|
  {
    if |worlds| > 0 && TryTargets(s, worlds[0], route, q, excluded).selected.Some? {
      SelectedIsOffered(s, worlds[0], route, q, excluded);
      ExcludedGrows(s, worlds[0], route, q, excluded);
      hide TryTargets, Offer, TargetKey;
      var o := TryTargets(s, worlds[0], route, q, excluded);
      TriedUnexcluded(s, route, q, o.excluded + {o.selected.value.key}, worlds[1..]);
    }
  }

  lemma ExcludedGrows(s: Scheduler, w: World, route: Route, q: Request, excluded: set<string>)
    ensures excluded <= TryTargets(s, w, route, q, excluded).excluded
  {
    hide Ordered, Candidates, Incapable, FirstTaken, Open;
  }

  lemma {:induction false} DistinctPositions(s: Scheduler, route: Route, q: Request, excluded: set<string>, worlds: seq<World>)
    ensures var cs := Tried(s, route, q, excluded, worlds); |Positions(cs)| == |cs|
    decreases |worlds|
  {
    if |worlds| == 0 || TryTargets(s, worlds[0], route, q, excluded).selected.None? {
      assert Positions([]) == {};
    } else {
      hide TryTargets, Offer, TargetKey;
      var o := TryTargets(s, worlds[0], route, q, excluded);
      var c := o.selected.value;
      var rest := Tried(s, route, q, o.excluded + {c.key}, worlds[1..]);
      DistinctPositions(s, route, q, o.excluded + {c.key}, worlds[1..]);
      TriedUnexcluded(s, route, q, o.excluded + {c.key}, worlds[1..]);
      TriedAreOffered(s, route, q, o.excluded + {c.key}, worlds[1..]);
      SelectedIsOffered(s, worlds[0], route, q, excluded);
      forall i | 0 <= i < |rest| ensures rest[i].index != c.index {
        assert Offered(s, route, q, rest[i]);
        OfferAt(s, route, rest[i].index, q);
      }
      OneMore(c, rest);
    }
  }

  lemma OneMore(c: Candidate, rest: seq<Candidate>)
    requires forall i :: 0 <= i < |rest| ==> rest[i].index != c.index
    ensures Positions([c] + rest) == {c.index} + Positions(rest) && c.index !in Positions(rest)
  {
    var all := [c] + rest;
    assert all[0] == c && forall i :: 0 <= i < |rest| ==> all[i + 1] == rest[i];
    forall x ensures x in Positions(all) <==> x in {c.index} + Positions(rest) {
      if x in Positions(rest) {
        var i :| 0 <= i < |rest| && rest[i].index == x;
        assert all[i + 1].index == x;
      }
      if x in Positions(all) {
        var i :| 0 <= i < |all| && all[i].index == x;
        if i > 0 { assert rest[i - 1].index == x; }
      }
    }
  }

  /** Whatever the strategy, no target is tried twice, and there are at most as many attempts
      as targets. */
  lemma NoTargetTwice(s: Scheduler, route: Route, q: Request, excluded: set<string>, worlds: seq<World>)
    ensures var cs := Tried(s, route, q, excluded, worlds);
      |Positions(cs)| == |cs| <= |route.targets|
  {
    hide TryTargets, Offer;
    var cs := Tried(s, route, q, excluded, worlds);
    TriedAreOffered(s, route, q, excluded, worlds);
    DistinctPositions(s, route, q, excluded, worlds);
    forall x | x in Positions(cs) ensures 0 <= x < |route.targets| {
      var i :| 0 <= i < |cs| && cs[i].index == x;
      assert Offered(s, route, q, cs[i]);
    }
    BelowSize(Positions(cs), |route.targets|);
  }

  lemma BelowSize(a: set<int>, n: nat)
    requires forall x :: x in a ==> 0 <= x < n
    ensures |a| <= n
  {
    var all := Ranges.Range(n);
    assert a <= all;
    assert all == a + (all - a);
  }
}
