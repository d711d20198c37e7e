/**
  Continuing a stored conversation is only safe when every selection the scheduler could
  make goes to the same upstream.  What the check accepts, selection keeps.
 */
module Continuation {
  import opened GoText
  import opened Accounts
  import opened TargetSelection
  import opened Readiness

  type Owner = Selection

  // ---- Stable models ----------------------------------------------------------------------

  /** The upstream models of a logical model, in the order they are declared. */
  function Upstreams(cs: seq<Capability>, logical: string): seq<string> {
    if |cs| == 0 then []
    else
      var c := cs[|cs| - 1];
      Upstreams(cs[..|cs| - 1], logical) + (if c.model == logical && c.status != UNSUPPORTED then [c.upstreamModel] else [])
  }

  /** Once one is named, every later one is the same. */
  predicate Stable(models: seq<string>) {
    forall i, j :: 0 <= i < j < |models| && models[i] != "" ==> models[j] == models[i]
  }

  method StableLogicalModel(a: Account, logical: string) returns (ok: bool)
    ensures ok == Stable(Upstreams(a.capabilities, logical))
  {
    hide Stable, Upstreams;
    var upstream := "";
    var i := 0;
    assert Upstreams(a.capabilities[..0], logical) == [] && Stable([]) by { NoUpstreams(a.capabilities, logical); }
    while i < |a.capabilities|
      invariant 0 <= i <= |a.capabilities|
      invariant Stable(Upstreams(a.capabilities[..i], logical))
      invariant upstream == Last(Upstreams(a.capabilities[..i], logical))
    {
      var c := a.capabilities[i];
      UpstreamsGrow(a.capabilities, logical, i);
      StableGrows(Upstreams(a.capabilities[..i], logical), c.upstreamModel);
      if c.model == logical && c.status != UNSUPPORTED {
        if upstream != "" && upstream != c.upstreamModel {
          StaysUnstable(a.capabilities, logical, i + 1);
          return false;
        }
        upstream := c.upstreamModel;
      }
      i := i + 1;
    }
    assert a.capabilities[..i] == a.capabilities;
    return true;
  }

  function Last(models: seq<string>): string {
    if |models| == 0 then "" else models[|models| - 1]
  }

  lemma NoUpstreams(cs: seq<Capability>, logical: string)
    ensures Upstreams(cs[..0], logical) == [] && Stable([])
  {
  }

  /** One more model keeps a list stable when it is the last one again, or the first named. */
  lemma StableGrows(models: seq<string>, m: string)
    ensures Stable(models + [m]) <==> Stable(models) && (Last(models) == "" || Last(models) == m)
    ensures Last(models + [m]) == m
  {
    var more := models + [m];
    assert forall i :: 0 <= i < |models| ==> more[i] == models[i];
    assert more[|models|] == m;
    if Stable(more) {
      assert forall i, j :: 0 <= i < j < |models| && models[i] != "" ==> more[j] == more[i];
    }
  }

  lemma UpstreamsGrow(cs: seq<Capability>, logical: string, i: nat)
    requires i < |cs|
    ensures var before, after := Upstreams(cs[..i], logical), Upstreams(cs[..i + 1], logical);
      after == if cs[i].model == logical && cs[i].status != UNSUPPORTED then before + [cs[i].upstreamModel] else before
  {
    assert cs[..i + 1][..i] == cs[..i];
    assert Upstreams(cs[..i], logical) + [] == Upstreams(cs[..i], logical);
  }

  lemma {:induction false} StaysUnstable(cs: seq<Capability>, logical: string, i: nat)
    requires i <= |cs| && !Stable(Upstreams(cs[..i], logical))
    ensures !Stable(Upstreams(cs, logical))
    decreases |cs| - i
  {
    hide Stable, Upstreams;
    if i == |cs| {
      assert cs[..i] == cs;
    } else {
      UpstreamsGrow(cs, logical, i);
      StableGrows(Upstreams(cs[..i], logical), cs[i].upstreamModel);
      StaysUnstable(cs, logical, i + 1);
    }
  }

  // ---- The check -----------------------------------------------------------------------------

  /** An owner of the conversation by way of a target; availability and capacity do not count. */
  function TargetOwner(s: Scheduler, route: Route, q: Request, t: Target): Option<Owner> {
    if t.account !in s.accounts then None
    else
      var a := s.accounts[t.account];
      if !a.enabled || !SupportsOperation(a, q.operation) then None
      else
        match ResolveRequested(a, route, t, q.required)
        case None => None
        case Some((model, effort)) =>
          if Compatible(a, model, q.operation, q.required.features, t.credential, effort) then Some(Selection(a.id, model, t.credential))
          else None
  }

  predicate FixedTarget(s: Scheduler, route: Route, t: Target)
    requires t.account in s.accounts
  {
    route.model == "" || Stable(Upstreams(s.accounts[t.account].capabilities, route.model))
  }

  predicate FixedAccount(s: Scheduler, route: Route, q: Request, id: string)
    requires id in s.accounts
  {
    route.upstreamModel != "" || MappedModel(s.accounts[id], q.model) != "" || Stable(Upstreams(s.accounts[id].capabilities, q.model))
  }

  function AccountOwner(s: Scheduler, route: Route, q: Request, id: string): Owner
    requires id in s.accounts
  {
    Selection(s.accounts[id].id, LegacyModel(s.accounts[id], route, q), "")
  }

  /** Every upstream a request could be sent to. */
  ghost predicate IsOwner(s: Scheduler, route: Route, q: Request, o: Owner) {
    if |route.targets| > 0 then exists i :: 0 <= i < |route.targets| && TargetOwner(s, route, q, route.targets[i]) == Some(o)
    else exists id :: Serves(s, route, q, id) && o == AccountOwner(s, route, q, id)
  }

  ghost predicate AllFixed(s: Scheduler, route: Route, q: Request) {
    if |route.targets| > 0 then
      forall i :: 0 <= i < |route.targets| && TargetOwner(s, route, q, route.targets[i]).Some? ==> FixedTarget(s, route, route.targets[i])
    else forall id :: Serves(s, route, q, id) ==> FixedAccount(s, route, q, id)
  }

  predicate DirectUpstream(a: Account, credential: string) {
    var adapter := ToLower(TrimSpace(a.adapterId));
    a.kind == "openai" && (adapter == "" || adapter == "generic-openai") && credential == ""
  }

  /** ValidateContinuation accepts: there is one owner, its model is fixed, and it is a direct
      upstream. */
  ghost predicate Accepts(s: Scheduler, q: Request) {
    var route := RouteOf(s, q.model);
    !q.required.continuation
    || ((exists o :: IsOwner(s, route, q, o) && o.account in s.accounts && DirectUpstream(s.accounts[o.account], o.credential)
                     && forall p :: IsOwner(s, route, q, p) ==> p == o)
        && AllFixed(s, route, q))
  }

  method CollectTargetOwners(s: Scheduler, route: Route, q: Request) returns (owners: set<Owner>, stable: bool)
    requires |route.targets| > 0
    ensures forall o :: o in owners <==> IsOwner(s, route, q, o)
    ensures stable <==> AllFixed(s, route, q)
  {
    hide ResolveRequested, Compatible, Stable;
    owners, stable := {}, true;
    var i := 0;
    while i < |route.targets|
      invariant 0 <= i <= |route.targets|
      invariant forall o :: o in owners <==> exists j :: 0 <= j < i && TargetOwner(s, route, q, route.targets[j]) == Some(o)
      invariant stable <==> forall j :: 0 <= j < i && TargetOwner(s, route, q, route.targets[j]).Some? ==> FixedTarget(s, route, route.targets[j])
    {
      var owner := TargetOwner(s, route, q, route.targets[i]);
      if owner.Some? {
        var fixed := route.model == "";
        if !fixed { fixed := StableLogicalModel(s.accounts[route.targets[i].account], route.model); }
        owners := owners + {owner.value};
        stable := stable && fixed;
      }
      i := i + 1;
    }
  }

  method CollectAccountOwners(s: Scheduler, route: Route, q: Request) returns (owners: set<Owner>, stable: bool)
    requires |route.targets| == 0
    ensures forall o :: o in owners <==> IsOwner(s, route, q, o)
    ensures stable <==> AllFixed(s, route, q)
  {
    hide LegacyModel, Compatible, SupportsModel, Stable;
    owners, stable := {}, true;
    var rest: set<string> := s.accounts.Keys;
    ghost var done: set<string> := {};
    while rest != {}
      invariant rest + done == s.accounts.Keys && rest !! done
      invariant forall o :: o in owners <==> exists id :: id in done && Serves(s, route, q, id) && o == AccountOwner(s, route, q, id)
      invariant stable <==> forall id :: id in done && Serves(s, route, q, id) ==> FixedAccount(s, route, q, id)
      decreases rest
    {
      SomeName(rest);
      var id :| id in rest;
      rest := rest - {id};
      done := done + {id};
      if Serves(s, route, q, id) {
        var fixed := route.upstreamModel != "" || MappedModel(s.accounts[id], q.model) != "";
        if !fixed { fixed := StableLogicalModel(s.accounts[id], q.model); }
        owners := owners + {AccountOwner(s, route, q, id)};
        stable := stable && fixed;
      }
    }
    assert done == s.accounts.Keys;
  }

  predicate OwnIds(s: Scheduler) {
    forall id :: id in s.accounts ==> s.accounts[id].id == id
  }

  method ValidateContinuation(s: Scheduler, q: Request) returns (ok: bool)
    requires OwnIds(s)
    ensures ok <==> Accepts(s, q)
  {
    hide IsOwner, AllFixed, DirectUpstream;
    if !q.required.continuation { return true; }
    var route := RouteOf(s, q.model);
    var owners, stable;
    if |route.targets| > 0 {
      owners, stable := CollectTargetOwners(s, route, q);
    } else {
      owners, stable := CollectAccountOwners(s, route, q);
    }
    if |owners| != 1 || !stable {
      NotOne(owners);
      return false;
    }
    OnlyOne(owners);
    var o :| o in owners;
    OwnerKnown(s, route, q, o);
    assert forall p :: IsOwner(s, route, q, p) ==> p == o;
    ok := DirectUpstream(s.accounts[o.account], o.credential);
  }

  lemma NotOne(owners: set<Owner>)
    ensures |owners| != 1 ==> !exists o :: o in owners && forall p :: p in owners ==> p == o
  {
    if o :| o in owners && forall p :: p in owners ==> p == o { assert owners == {o}; }
  }

  lemma OnlyOne(owners: set<Owner>)
    requires |owners| == 1
    ensures exists o :: o in owners && forall p :: p in owners ==> p == o
  {
    var o :| o in owners;
    assert owners - {o} == {} by { assert |owners - {o}| == 0; }
    assert forall p :: p in owners ==> p == o by { assert forall p :: p in owners ==> p !in owners - {o}; }
  }

  lemma OwnerKnown(s: Scheduler, route: Route, q: Request, o: Owner)
    requires OwnIds(s) && IsOwner(s, route, q, o)
    ensures o.account in s.accounts
  {
    hide ResolveRequested, Compatible, LegacyModel, SupportsModel;
  }

  // ---- Selection keeps the owner ------------------------------------------------------------------

  /** Whatever selection returns is an owner. */
  lemma SelectedIsOwner(s: Scheduler, w: World, q: Request, excluded: set<string>, sel: Selection)
    requires OwnIds(s) && MaySelect(s, w, q, excluded, sel)
    ensures IsOwner(s, RouteOf(s, q.model), q, sel)
  {
    var route := RouteOf(s, q.model);
    if |route.targets| > 0 {
      hide TryTargets, ResolveRequested, Compatible;
      SelectedOffered(s, w, route, q, excluded);
      var c := TryTargets(s, w, route, q, excluded).selected.value;
      OfferIsOwner(s, route, q, c.index);
    } else {
      hide Serves, LegacyModel;
    }
  }

  lemma OfferIsOwner(s: Scheduler, route: Route, q: Request, i: nat)
    requires i < |route.targets| && Offer(s, route, i, q).Some?
    ensures var c := Offer(s, route, i, q).value;
      TargetOwner(s, route, q, route.targets[i]) == Some(Selection(c.account.id, c.model, c.credential))
  {
    hide ResolveRequested, Compatible, TargetKey;
  }

  lemma SelectedOffered(s: Scheduler, w: World, route: Route, q: Request, excluded: set<string>)
    requires TryTargets(s, w, route, q, excluded).selected.Some?
    ensures var c := TryTargets(s, w, route, q, excluded).selected.value;
      c.index < |route.targets| && Offer(s, route, c.index, q) == Some(c)
  {
    hide Offer, TargetKey, Ordered;
    var cs := Candidates(s, route, q, excluded, |route.targets|);
    CandidatesOfferedBy(s, route, q, excluded, |route.targets|);
    OrderedKeeps(s, w, q, route.strategy, cs);
    var c := TryTargets(s, w, route, q, excluded).selected.value;
    assert c in cs && Offers(s, route, q, c, |route.targets|);
  }

  predicate Offers(s: Scheduler, route: Route, q: Request, c: Candidate, n: nat)
    requires n <= |route.targets|
  {
    c.index < n && Offer(s, route, c.index, q) == Some(c)
  }

  lemma OfferIndex(s: Scheduler, route: Route, q: Request, i: nat)
    requires i < |route.targets| && Offer(s, route, i, q).Some?
    ensures Offer(s, route, i, q).value.index == i
  {
    hide ResolveRequested, Compatible, TargetKey;
  }

  lemma {:induction false} CandidatesOfferedBy(s: Scheduler, route: Route, q: Request, excluded: set<string>, n: nat)
    requires n <= |route.targets|
    ensures forall c :: c in Candidates(s, route, q, excluded, n) ==> Offers(s, route, q, c, n)
  {
    hide Offer, TargetKey;
    if n > 0 {
      CandidatesOfferedBy(s, route, q, excluded, n - 1);
      if Offer(s, route, n - 1, q).Some? { OfferIndex(s, route, q, n - 1); }
      assert forall c :: Offers(s, route, q, c, n - 1) ==> Offers(s, route, q, c, n);
    }
  }

  /** If a continuation is accepted, any two selections for it, at any instants, with any
      exclusions and sessions, have the same account, model and credential. */
  lemma ContinuationIsStable(s: Scheduler, q: Request, session: string, w: World, v: World, excluded: set<string>, others: set<string>,
                             a: Selection, b: Selection)
    requires OwnIds(s) && q.required.continuation && Accepts(s, q)
    requires MaySelect(s, w, q, excluded, a) && MaySelect(s, v, q.(session := session), others, b)
    ensures a == b
  {
    SelectedIsOwner(s, w, q, excluded, a);
    SelectedIsOwner(s, v, q.(session := session), others, b);
    SessionIrrelevant(s, q, session, b);
  }

  /** The session only orders candidates. */
  lemma SessionIrrelevant(s: Scheduler, q: Request, session: string, o: Owner)
    ensures IsOwner(s, RouteOf(s, q.model), q, o) <==> IsOwner(s, RouteOf(s, q.model), q.(session := session), o)
  {
    var r := q.(session := session);
    var route := RouteOf(s, q.model);
    hide ResolveRequested, Compatible, SupportsModel, SupportsTargetModel, EffortSupported;
    if |route.targets| > 0 {
      assert forall i :: 0 <= i < |route.targets| ==> TargetOwner(s, route, q, route.targets[i]) == TargetOwner(s, route, r, route.targets[i]);
    } else {
      forall id ensures Serves(s, route, q, id) <==> Serves(s, route, r, id) {}
      assert forall id :: id in s.accounts ==> AccountOwner(s, route, q, id) == AccountOwner(s, route, r, id);
    }
  }
}
