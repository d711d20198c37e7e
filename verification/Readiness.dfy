/**
  Selection on a route that names accounts instead of targets, and readiness, which is
  decided by other code than selection and must agree with what selection would really do.
 */
module Readiness {
  import opened GoText
  import opened Accounts
  import opened TargetSelection
  import Sorting

  // ---- Selection without explicit targets -------------------------------------------------

  /** The route a model name selects; a name that is not routed reads as an empty route. */
  function RouteOf(s: Scheduler, model: string): Route {
    if model in s.routes then s.routes[model] else NO_ROUTE
  }

  function LegacyModel(a: Account, route: Route, q: Request): string {
    RequestUpstreamModel(a, q.model, route.upstreamModel, q.required)
  }

  /** An account that may serve a request by name. */
  predicate Serves(s: Scheduler, route: Route, q: Request, id: string) {
    id in s.accounts &&
    var a := s.accounts[id];
    a.enabled && SupportsOperation(a, q.operation)
    && (if q.model in s.routes then route.allAccounts || id in route.accounts else SupportsModel(a, q.model))
    && SupportsTargetModel(a, LegacyModel(a, route, q))
    && Compatible(a, LegacyModel(a, route, q), q.operation, q.required.features, "", q.required.effort)
    && (q.required.effort != "" && q.required.effort != "auto" ==> EffortSupported(a, LegacyModel(a, route, q), q.required.effort))
  }

  predicate ServesNow(s: Scheduler, w: World, route: Route, q: Request, id: string) {
    Serves(s, route, q, id) && w.available(id, q.operation, LegacyModel(s.accounts[id], route, q), "")
  }

  datatype Selection = Selection(account: string, model: string, credential: string)

  datatype Answer = Answer(selected: Option<Selection>, eligible: bool, capacityBlocked: bool)

  /** The account branch of trySelect: some account that serves now and has a free slot, or
      the reason why there is none. */
  ghost predicate LegacyAnswer(s: Scheduler, w: World, route: Route, q: Request, excluded: set<string>, r: Answer) {
    (r.eligible <==> exists id :: id !in excluded && Serves(s, route, q, id))
    && (match r.selected
        case Some(sel) =>
          sel.account !in excluded && ServesNow(s, w, route, q, sel.account) && w.free(sel.account, 0) && !r.capacityBlocked
          && sel.model == LegacyModel(s.accounts[sel.account], route, q) && sel.credential == ""
        case None =>
          (forall id :: id !in excluded && ServesNow(s, w, route, q, id) ==> !w.free(id, 0))
          && (r.capacityBlocked <==> exists id :: id !in excluded && ServesNow(s, w, route, q, id)))
  }

  method CollectAccounts(s: Scheduler, w: World, route: Route, q: Request, excluded: set<string>)
    returns (candidates: seq<string>, eligible: bool)
    ensures forall id :: id in candidates <==> id !in excluded && ServesNow(s, w, route, q, id)
    ensures eligible <==> exists id :: id !in excluded && Serves(s, route, q, id)
  {
    hide LegacyModel, Compatible, SupportsModel;
    candidates, eligible := [], false;
    var rest: set<string> := s.accounts.Keys;
    ghost var done: set<string> := {};
    while rest != {}
      invariant rest + done == s.accounts.Keys && rest !! done
      invariant forall id :: id in candidates <==> id in done && id !in excluded && ServesNow(s, w, route, q, id)
      invariant eligible <==> exists id :: id in done && id !in excluded && Serves(s, route, q, id)
      decreases rest
    {
      SomeName(rest);
      var id :| id in rest;
      rest := rest - {id};
      done := done + {id};
      if id !in excluded && Serves(s, route, q, id) {
        eligible := true;
        if ServesNow(s, w, route, q, id) { candidates := candidates + [id]; }
      }
    }
    assert done == s.accounts.Keys;
  }

  lemma SomeName(names: set<string>)
    ensures names != {} ==> exists x :: x in names
  {
    if forall x :: x !in names { assert names == {}; }
  }

  /** How candidates are ordered before they are tried. */
  method OrderAccounts(s: Scheduler, w: World, route: Route, q: Request, candidates: seq<string>) returns (ordered: seq<string>)
    requires forall id :: id in candidates ==> id in s.accounts
    ensures forall id :: id in ordered <==> id in candidates
  {
    hide AccountOrder;
    var strategy := if route.strategy == "" then "least_loaded" else route.strategy;
    var less := AccountOrder(s, w, q, strategy);
    Sorting.SameElements(candidates, less);
    ordered := Sorting.SortBy(candidates, less);
    if strategy == "round_robin" && |ordered| > 1 && w.counter > 0 {
      var k := (w.counter - 1) % |ordered|;
      RotatedSame(ordered, k);
      ordered := ordered[k..] + ordered[..k];
    }
  }

  lemma RotatedSame(xs: seq<string>, k: nat)
    requires k <= |xs|
    ensures forall x :: x in xs[k..] + xs[..k] <==> x in xs
  {
    assert xs == xs[..k] + xs[k..];
  }

  function AccountOrder(s: Scheduler, w: World, q: Request, strategy: string): (string, string) -> bool {
    (a: string, b: string) =>
      if a !in s.accounts || b !in s.accounts then false
      else if strategy == "sticky" && q.session != "" then
        s.score(q.session, q.model, s.accounts[a]) > s.score(q.session, q.model, s.accounts[b])
      else if strategy != "priority" && strategy != "round_robin" && w.load(a) != w.load(b) then w.load(a) < w.load(b)
      else if strategy != "round_robin" && s.accounts[a].priority != s.accounts[b].priority then s.accounts[a].priority < s.accounts[b].priority
      else TextBefore(a, b)
  }

  method TrySelectAccounts(s: Scheduler, w: World, route: Route, q: Request, excluded: set<string>) returns (r: Answer)
    ensures LegacyAnswer(s, w, route, q, excluded, r)
  {
    var candidates, eligible := CollectAccounts(s, w, route, q, excluded);
    hide Serves, LegacyModel;
    assert forall id :: id in candidates ==> id in s.accounts by { ServesKnown(s, w, route, q); }
    if |candidates| == 0 {
      NoneServes(candidates);
      return Answer(None, eligible, false);
    }
    var ordered := OrderAccounts(s, w, route, q, candidates);
    var i := 0;
    while i < |ordered|
      invariant 0 <= i <= |ordered|
      invariant forall j :: 0 <= j < i ==> !w.free(ordered[j], 0)
    {
      var id := ordered[i];
      assert id in ordered;
      if w.free(id, 0) {
        ServesKnown(s, w, route, q);
        return Answer(Some(Selection(id, LegacyModel(s.accounts[id], route, q), "")), eligible, false);
      }
      i := i + 1;
    }
    assert candidates[0] in candidates;
    return Answer(None, eligible, true);
  }

  lemma NoneServes(candidates: seq<string>)
    requires |candidates| == 0
    ensures forall id :: id !in candidates
  {
  }

  lemma ServesKnown(s: Scheduler, w: World, route: Route, q: Request)
    ensures forall id :: ServesNow(s, w, route, q, id) ==> id in s.accounts
  {
  }

  // ---- Any selection ----------------------------------------------------------------------------

  /** trySelect may return this selection. */
  ghost predicate MaySelect(s: Scheduler, w: World, q: Request, excluded: set<string>, sel: Selection) {
    var route := RouteOf(s, q.model);
    if |route.targets| > 0 then
      var o := TryTargets(s, w, route, q, excluded);
      o.selected.Some? && sel == Selection(o.selected.value.account.id, o.selected.value.model, o.selected.value.credential)
    else
      exists r :: LegacyAnswer(s, w, route, q, excluded, r) && r.selected == Some(sel)
  }

  /** trySelect reports that a source is merely full, or selects one. */
  ghost predicate SelectsOrWaits(s: Scheduler, w: World, q: Request) {
    var route := RouteOf(s, q.model);
    if |route.targets| > 0 then
      var o := TryTargets(s, w, route, q, {});
      o.selected.Some? || o.capacityBlocked
    else
      exists id :: ServesNow(s, w, route, q, id)
  }

  /** For accounts that is the same as what any answer says. */
  lemma LegacySelectsOrWaits(s: Scheduler, w: World, q: Request, r: Answer)
    requires |RouteOf(s, q.model).targets| == 0 && LegacyAnswer(s, w, RouteOf(s, q.model), q, {}, r)
    ensures SelectsOrWaits(s, w, q) <==> r.selected.Some? || r.capacityBlocked
  {
    hide ServesNow, Serves, LegacyModel;
  }

  // ---- Readiness ----------------------------------------------------------------------------------

  /** What readiness looks at: an account, the model and effort a target or route means on
      it, and the target it came from. */
  datatype HealthTarget = HealthTarget(account: string, credential: string, model: string, effort: string, target: Option<Target>)

  /** routeHealthTargets. */
  function TargetHealth(s: Scheduler, route: Route, t: Target): HealthTarget {
    var resolved := if t.account in s.accounts && route.model != "" then ResolveTarget(s.accounts[t.account], route, t) else None;
    match resolved
    case Some((model, effort)) => HealthTarget(t.account, t.credential, model, effort, Some(t))
    case None => HealthTarget(t.account, t.credential, t.model, t.effort, Some(t))
  }

  function AccountHealth(s: Scheduler, alias: string, route: Route, id: string): HealthTarget {
    HealthTarget(id, "", if id in s.accounts then UpstreamModel(s.accounts[id], alias, route.upstreamModel) else route.upstreamModel, "", None)
  }

  ghost predicate IsHealthTarget(s: Scheduler, alias: string, route: Route, h: HealthTarget) {
    if |route.targets| > 0 then exists i :: 0 <= i < |route.targets| && h == TargetHealth(s, route, route.targets[i])
    else if |route.accounts| > 0 then exists i :: 0 <= i < |route.accounts| && h == AccountHealth(s, alias, route, route.accounts[i])
    else route.allAccounts && h.account in s.accounts && s.accounts[h.account].enabled && h == AccountHealth(s, alias, route, h.account)
  }

  /** routeHealthTarget.available. */
  predicate HealthAvailable(s: Scheduler, w: World, route: Route, h: HealthTarget) {
    h.account in s.accounts &&
    var a := s.accounts[h.account];
    a.enabled && (if h.target.None? then SupportsTargetModel(a, h.model) else ResolveTarget(a, route, h.target.value).Some?)
    && exists op :: op in Operations(a) && !(op == MESSAGES && h.effort != "" && h.effort != "auto")
                    && Compatible(a, h.model, op, [], h.credential, h.effort) && w.available(h.account, op, h.model, h.credential)
  }

  ghost predicate RouteAvailable(s: Scheduler, w: World, alias: string) {
    alias in s.routes && exists h :: IsHealthTarget(s, alias, s.routes[alias], h) && HealthAvailable(s, w, s.routes[alias], h)
  }

  /** What configuration validation guarantees here: a route uses one way of naming its
      accounts, names are trimmed, and accounts are registered under their own ids. */
  predicate Validated(s: Scheduler) {
    (forall id :: id in s.accounts ==> s.accounts[id].id == id)
    && forall alias :: alias in s.routes ==>
         var r := s.routes[alias];
         (r.allAccounts ==> r.accounts == [] && r.targets == [])
         && TrimSpace(r.model) == r.model
         && forall t :: t in r.targets ==> TrimSpace(t.model) == t.model
  }

  function Plain(alias: string, op: string): Request {
    Request(alias, op, "", NOTHING_REQUIRED)
  }

  /** A target is available to readiness for an operation exactly when selection could offer it. */
  lemma TargetAgrees(s: Scheduler, w: World, alias: string, i: nat, op: string)
    requires Validated(s) && alias in s.routes && i < |s.routes[alias].targets|
    ensures var route := s.routes[alias];
      var t := route.targets[i];
      var h, o := TargetHealth(s, route, t), Offer(s, route, i, Plain(alias, op));
      (t.account in s.accounts && s.accounts[t.account].enabled && op in Operations(s.accounts[t.account])
       && ResolveTarget(s.accounts[t.account], route, t).Some? && !(op == MESSAGES && h.effort != "" && h.effort != "auto")
       && Compatible(s.accounts[t.account], h.model, op, [], h.credential, h.effort))
      <==> o.Some?
    ensures var route := s.routes[alias];
      var h, o := TargetHealth(s, route, route.targets[i]), Offer(s, route, i, Plain(alias, op));
      o.Some? ==> o.value.account.id == h.account && o.value.model == h.model && o.value.credential == h.credential
  {
    hide Compatible, TargetKey, TrimSpace, ToLower;
  }

  /** On targets, selecting or waiting means that some target is offered and available. */
  lemma TargetsSelectOrWait(s: Scheduler, w: World, route: Route, q: Request)
    ensures var o := TryTargets(s, w, route, q, {});
      (o.selected.Some? || o.capacityBlocked)
      <==> exists i: nat :: i < |route.targets| && Offer(s, route, i, q).Some? && Open(w, q, Offer(s, route, i, q).value)
  {
    hide Offer, TargetKey, Ordered;
    var n := |route.targets|;
    var cs := Candidates(s, route, q, {}, n);
    var os := Ordered(s, w, q, route.strategy, cs);
    var o := TryTargets(s, w, route, q, {});
    OrderedKeeps(s, w, q, route.strategy, cs);
    CandidatesOffered(s, route, q, n);
    var k := FirstTaken(w, q, os);
    if o.selected.Some? {
      assert os[k] in cs;
    } else if o.capacityBlocked {
      var i :| 0 <= i < k && Open(w, q, os[i]);
      assert os[i] in cs;
    }
    forall i: nat | i < n && Offer(s, route, i, q).Some? && Open(w, q, Offer(s, route, i, q).value)
      ensures o.selected.Some? || o.capacityBlocked
    {
      var c := Offer(s, route, i, q).value;
      assert c in cs;
      var j :| 0 <= j < |os| && os[j] == c;
    }
  }

  lemma {:induction false} CandidatesOffered(s: Scheduler, route: Route, q: Request, n: nat)
    requires n <= |route.targets|
    ensures forall c :: c in Candidates(s, route, q, {}, n) ==> exists i: nat :: i < n && Offer(s, route, i, q) == Some(c)
    ensures forall i: nat :: i < n && Offer(s, route, i, q).Some? ==> Offer(s, route, i, q).value in Candidates(s, route, q, {}, n)
  {
    hide Offer, TargetKey;
    if n > 0 {
      CandidatesOffered(s, route, q, n - 1);
    }
  }

  /** An account agrees in the same way. */
  lemma AccountAgrees(s: Scheduler, w: World, alias: string, id: string, op: string)
    requires Validated(s) && alias in s.routes && |s.routes[alias].targets| == 0
    ensures var route := s.routes[alias];
      var h := AccountHealth(s, alias, route, id);
      ServesNow(s, w, route, Plain(alias, op), id)
      <==> IsHealthTarget(s, alias, route, h) && id in s.accounts && s.accounts[id].enabled && SupportsTargetModel(s.accounts[id], h.model)
           && op in Operations(s.accounts[id]) && Compatible(s.accounts[id], h.model, op, [], "", "") && w.available(id, op, h.model, "")
  {
    hide Compatible, SupportsModel, EffortSupported, SupportsTargetModel;
    var route := s.routes[alias];
    if id in route.accounts {
      var i :| 0 <= i < |route.accounts| && route.accounts[i] == id;
      assert AccountHealth(s, alias, route, id) == AccountHealth(s, alias, route, route.accounts[i]);
    }
  }

  /** Readiness and scheduling agree: a route is ready exactly when, for some operation, an
      unconditional selection would succeed or find its sources merely full. */
  lemma ReadinessAgrees(s: Scheduler, w: World, alias: string)
    requires Validated(s) && alias in s.routes
    ensures RouteAvailable(s, w, alias) <==> exists op :: SelectsOrWaits(s, w, Plain(alias, op))
  {
    if |s.routes[alias].targets| > 0 { TargetReadiness(s, w, alias); } else { AccountReadiness(s, w, alias); }
  }

  lemma TargetReadiness(s: Scheduler, w: World, alias: string)
    requires Validated(s) && alias in s.routes && |s.routes[alias].targets| > 0
    ensures RouteAvailable(s, w, alias) <==> exists op :: SelectsOrWaits(s, w, Plain(alias, op))
  {
    hide Compatible, ResolveTarget, TargetHealth, Offer, TryTargets, Operations, Validated;
    var route := s.routes[alias];
    if RouteAvailable(s, w, alias) {
      var h :| IsHealthTarget(s, alias, route, h) && HealthAvailable(s, w, route, h);
      var i :| 0 <= i < |route.targets| && h == TargetHealth(s, route, route.targets[i]);
      TargetHealthIs(s, route, route.targets[i]);
      var op :| op in Operations(s.accounts[h.account]) && !(op == MESSAGES && h.effort != "" && h.effort != "auto")
        && Compatible(s.accounts[h.account], h.model, op, [], h.credential, h.effort) && w.available(h.account, op, h.model, h.credential);
      TargetAgrees(s, w, alias, i, op);
      TargetsSelectOrWait(s, w, route, Plain(alias, op));
      assert SelectsOrWaits(s, w, Plain(alias, op));
    }
    forall op | SelectsOrWaits(s, w, Plain(alias, op)) ensures RouteAvailable(s, w, alias) {
      TargetsSelectOrWait(s, w, route, Plain(alias, op));
      var i: nat :| i < |route.targets| && Offer(s, route, i, Plain(alias, op)).Some? && Open(w, Plain(alias, op), Offer(s, route, i, Plain(alias, op)).value);
      TargetAgrees(s, w, alias, i, op);
      TargetHealthIs(s, route, route.targets[i]);
      var h := TargetHealth(s, route, route.targets[i]);
      assert IsHealthTarget(s, alias, route, h) && HealthAvailable(s, w, route, h);
    }
  }

  lemma TargetHealthIs(s: Scheduler, route: Route, t: Target)
    ensures var h := TargetHealth(s, route, t); h.account == t.account && h.credential == t.credential && h.target == Some(t)
  {
    hide ResolveTarget;
  }

  lemma AccountReadiness(s: Scheduler, w: World, alias: string)
    requires Validated(s) && alias in s.routes && |s.routes[alias].targets| == 0
    ensures RouteAvailable(s, w, alias) <==> exists op :: SelectsOrWaits(s, w, Plain(alias, op))
  {
    hide Compatible, UpstreamModel, Serves, Operations, SupportsTargetModel, ServesNow, Validated;
    var route := s.routes[alias];
    if RouteAvailable(s, w, alias) {
      var h :| IsHealthTarget(s, alias, route, h) && HealthAvailable(s, w, route, h);
      var op :| op in Operations(s.accounts[h.account]) && !(op == MESSAGES && h.effort != "" && h.effort != "auto")
        && Compatible(s.accounts[h.account], h.model, op, [], h.credential, h.effort) && w.available(h.account, op, h.model, h.credential);
      AccountAgrees(s, w, alias, h.account, op);
      assert SelectsOrWaits(s, w, Plain(alias, op));
    }
    forall op | SelectsOrWaits(s, w, Plain(alias, op)) ensures RouteAvailable(s, w, alias) {
      var id :| ServesNow(s, w, route, Plain(alias, op), id);
      AccountAgrees(s, w, alias, id, op);
      var h := AccountHealth(s, alias, route, id);
      assert IsHealthTarget(s, alias, route, h) && HealthAvailable(s, w, route, h);
    }
  }

  // ---- As the scheduler does it --------------------------------------------------------------------

  method RouteHealthTargets(s: Scheduler, alias: string, route: Route) returns (hs: seq<HealthTarget>)
    ensures forall h :: h in hs <==> IsHealthTarget(s, alias, route, h)
  {
    hide TargetHealth, UpstreamModel;
    hs := [];
    if |route.targets| > 0 {
      var i := 0;
      while i < |route.targets|
        invariant 0 <= i <= |route.targets|
        invariant forall h :: h in hs <==> exists j :: 0 <= j < i && h == TargetHealth(s, route, route.targets[j])
      {
        hs := hs + [TargetHealth(s, route, route.targets[i])];
        i := i + 1;
      }
      return;
    }
    if |route.accounts| > 0 {
      var i := 0;
      while i < |route.accounts|
        invariant 0 <= i <= |route.accounts|
        invariant forall h :: h in hs <==> exists j :: 0 <= j < i && h == AccountHealth(s, alias, route, route.accounts[j])
      {
        hs := hs + [AccountHealth(s, alias, route, route.accounts[i])];
        i := i + 1;
      }
      return;
    }
    if !route.allAccounts { return; }
    var rest: set<string> := s.accounts.Keys;
    ghost var done: set<string> := {};
    while rest != {}
      invariant rest + done == s.accounts.Keys && rest !! done
      invariant forall h :: h in hs <==> h.account in done && s.accounts[h.account].enabled && h == AccountHealth(s, alias, route, h.account)
      decreases rest
    {
      SomeName(rest);
      var id :| id in rest;
      rest := rest - {id};
      done := done + {id};
      if s.accounts[id].enabled { hs := hs + [AccountHealth(s, alias, route, id)]; }
    }
    assert done == s.accounts.Keys;
  }

  method CheckRoute(s: Scheduler, w: World, alias: string) returns (ok: bool)
    ensures ok <==> RouteAvailable(s, w, alias)
  {
    hide IsHealthTarget, HealthAvailable;
    if alias !in s.routes { return false; }
    var hs := RouteHealthTargets(s, alias, s.routes[alias]);
    var i := 0;
    while i < |hs|
      invariant 0 <= i <= |hs|
      invariant forall j :: 0 <= j < i ==> !HealthAvailable(s, w, s.routes[alias], hs[j])
    {
      if HealthAvailable(s, w, s.routes[alias], hs[i]) {
        assert hs[i] in hs;
        return true;
      }
      i := i + 1;
    }
    return false;
  }
}
