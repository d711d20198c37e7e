/**
  Selection on a route with explicit targets: which targets may serve a request, in which
  order they are tried, and what a successful selection excludes for the attempts after it.
 */
module TargetSelection {
  import opened GoText
  import opened Accounts
  import opened Sorting

  datatype Candidate = Candidate(index: nat, account: Account, key: string, model: string, effort: string, credential: string)

  /** A generation of the scheduler. `score` stands for the rendezvous hash. */
  datatype Scheduler = Scheduler(accounts: map<string, Account>, routes: map<string, Route>, score: (string, string, Account) -> int)

  /** The world during one selection: closed breakers by account, operation, model and
      credential, whether an account has a free slot when the candidate at a position is
      tried (others may take and release slots meanwhile; a route of accounts tries each of
      them once, under position 0), loads, and the round-robin counter. */
  datatype World = World(available: (string, string, string, string) -> bool, free: (string, nat) -> bool, load: string -> real, counter: nat)

  datatype Request = Request(model: string, operation: string, session: string, required: Requirements)

  // ---- Keys -------------------------------------------------------------------------------

  /** routeTargetKey. */
  function TargetKey(index: nat, t: Target): string {
    "target:" + Itoa(index) + ":" + t.account + ":" + t.credential + ":" + t.model + ":" + t.effort
  }

  function KeyTail(t: Target): string {
    t.account + ":" + t.credential + ":" + t.model + ":" + t.effort
  }

  /** Keys of different positions are different, whatever the names contain. */
  lemma KeysDiffer(i: nat, j: nat, t: Target, u: Target)
    requires TargetKey(i, t) == TargetKey(j, u)
    ensures i == j
  {
    var a, b, x, y := Itoa(i), Itoa(j), KeyTail(t), KeyTail(u);
    KeyIs(i, t);
    KeyIs(j, u);
    assert ("target:" + (a + ":" + x))[7..] == a + ":" + x && ("target:" + (b + ":" + y))[7..] == b + ":" + y;
    FirstCut(a, x, b, y, ':');
  }

  lemma KeyIs(i: nat, t: Target)
    ensures TargetKey(i, t) == "target:" + (Itoa(i) + ":" + KeyTail(t))
  {
    hide Itoa;
    var n, r := Itoa(i), t.account + ":" + t.credential + ":" + t.model + ":" + t.effort;
    assert TargetKey(i, t) == "target:" + n + ":" + t.account + ":" + t.credential + ":" + t.model + ":" + t.effort;
    Regroup("target:" + n + ":", t.account, ":", t.credential, ":", t.model, ":", t.effort);
    assert "target:" + n + ":" + r == "target:" + (n + ":" + r);
  }

  lemma Regroup(h: string, a: string, b: string, c: string, d: string, e: string, f: string, g: string)
    ensures h + a + b + c + d + e + f + g == h + (a + b + c + d + e + f + g)
  {
  }

  // ---- Candidates ------------------------------------------------------------------------------

  /** What a target offers for a request, if it can serve it at all. */
  function Offer(s: Scheduler, route: Route, index: nat, q: Request): Option<Candidate>
    requires index < |route.targets|
  {
    var t := route.targets[index];
    if t.account !in s.accounts then None
    else
      var a := s.accounts[t.account];
      if !a.enabled || !SupportsOperation(a, q.operation) then None
      else
        match ResolveRequested(a, route, t, q.required)
        case None => None
        case Some((model, effort)) =>
          if (q.operation == MESSAGES && effort != "" && effort != "auto")
             || !Compatible(a, model, q.operation, q.required.features, t.credential, effort) then None
          else Some(Candidate(index, a, TargetKey(index, t), model, effort, t.credential))
  }

  /** Targets up to position n that are not excluded and can serve the request, as authored. */
  function Candidates(s: Scheduler, route: Route, q: Request, excluded: set<string>, n: nat): seq<Candidate>
    requires n <= |route.targets|
  {
    if n == 0 then []
    else
      Candidates(s, route, q, excluded, n - 1)
      + (if TargetKey(n - 1, route.targets[n - 1]) in excluded then []
         else match Offer(s, route, n - 1, q) case None => [] case Some(c) => [c])
  }

  /** Targets that are not excluded and cannot serve the request. */
  function Incapable(s: Scheduler, route: Route, q: Request, excluded: set<string>, n: nat): set<string>
    requires n <= |route.targets|
  {
    if n == 0 then {}
    else
      var key := TargetKey(n - 1, route.targets[n - 1]);
      Incapable(s, route, q, excluded, n - 1) + (if key !in excluded && Offer(s, route, n - 1, q).None? then {key} else {})
  }

  // ---- Order ------------------------------------------------------------------------------------

  function Score(s: Scheduler, q: Request, c: Candidate): int {
    s.score(q.session, q.model + "\0" + c.key, c.account)
  }

  /** Highest score first. */
  function ByScore(s: Scheduler, q: Request): (Candidate, Candidate) -> bool {
    (a: Candidate, b: Candidate) => if Score(s, q, a) != Score(s, q, b) then Score(s, q, a) > Score(s, q, b) else a.index < b.index
  }

  /** Lowest priority value first. */
  function ByPriority(): (Candidate, Candidate) -> bool {
    (a: Candidate, b: Candidate) => if a.account.priority != b.account.priority then a.account.priority < b.account.priority else a.index < b.index
  }

  function TextBefore(a: string, b: string): bool {
    if |b| == 0 then false else if |a| == 0 then true
    else if a[0] != b[0] then a[0] < b[0] else TextBefore(a[1..], b[1..])
  }

  function ByLoad(w: World): (Candidate, Candidate) -> bool {
    (a: Candidate, b: Candidate) =>
      if w.load(a.account.id) != w.load(b.account.id) then w.load(a.account.id) < w.load(b.account.id)
      else if a.account.priority != b.account.priority then a.account.priority < b.account.priority
      else if a.account.id != b.account.id then TextBefore(a.account.id, b.account.id)
      else a.index < b.index
  }

  function Rotated(cs: seq<Candidate>, counter: nat): seq<Candidate> {
    if |cs| == 0 || counter == 0 then cs else cs[(counter - 1) % |cs|..] + cs[..(counter - 1) % |cs|]
  }

  /** orderRouteTargetCandidates. */
  function Ordered(s: Scheduler, w: World, q: Request, strategy: string, cs: seq<Candidate>): seq<Candidate> {
    var how := TrimSpace(strategy);
    if |cs| < 2 || how == "" then cs
    else if how == "round_robin" then Rotated(cs, w.counter)
    else if how == "sticky" && q.session != "" then SortBy(cs, ByScore(s, q))
    else if how == "priority" then SortBy(cs, ByPriority())
    else SortBy(cs, ByLoad(w))
  }

  lemma OrderedKeeps(s: Scheduler, w: World, q: Request, strategy: string, cs: seq<Candidate>)
    ensures forall c :: c in Ordered(s, w, q, strategy, cs) <==> c in cs
  {
    hide TrimSpace;
    SameElements(cs, ByScore(s, q));
    SameElements(cs, ByPriority());
    SameElements(cs, ByLoad(w));
    if |cs| > 0 && w.counter > 0 {
      var k := (w.counter - 1) % |cs|;
      assert cs == cs[..k] + cs[k..];
    }
  }

  // ---- Selection -----------------------------------------------------------------------------------

  predicate Open(w: World, q: Request, c: Candidate) {
    w.available(c.account.id, q.operation, c.model, c.credential)
  }

  predicate Takes(w: World, q: Request, c: Candidate) {
    Open(w, q, c) && w.free(c.account.id, c.index)
  }

  /** The first candidate that can be taken. */
  function FirstTaken(w: World, q: Request, cs: seq<Candidate>): (k: nat)
    ensures k <= |cs| && (k < |cs| ==> Takes(w, q, cs[k])) && forall i :: 0 <= i < k ==> !Takes(w, q, cs[i])
  {
    if |cs| == 0 || Takes(w, q, cs[0]) then 0 else FirstTaken(w, q, cs[1..]) + 1
  }

  /** A candidate before position k is merely full. */
  predicate BlockedBefore(w: World, q: Request, cs: seq<Candidate>, k: nat)
    requires k <= |cs|
  {
    exists i :: 0 <= i < k && Open(w, q, cs[i])
  }

  function KeysBefore(cs: seq<Candidate>, k: nat): set<string>
    requires k <= |cs|
  {
    set i | 0 <= i < k :: cs[i].key
  }

  lemma OneMore(w: World, q: Request, cs: seq<Candidate>, k: nat)
    requires k < |cs|
    ensures BlockedBefore(w, q, cs, k + 1) <==> BlockedBefore(w, q, cs, k) || Open(w, q, cs[k])
    ensures KeysBefore(cs, k + 1) == KeysBefore(cs, k) + {cs[k].key}
  {
  }

  lemma FirstTakenIs(w: World, q: Request, cs: seq<Candidate>, k: nat)
    requires k <= |cs| && (k < |cs| ==> Takes(w, q, cs[k])) && forall i :: 0 <= i < k ==> !Takes(w, q, cs[i])
    ensures FirstTaken(w, q, cs) == k
  {
  }

  /** A selection, whether any target could serve the request, whether one was merely full,
      and the keys excluded from then on. */
  datatype Outcome = Outcome(selected: Option<Candidate>, eligible: bool, capacityBlocked: bool, excluded: set<string>)

  function TryTargets(s: Scheduler, w: World, route: Route, q: Request, excluded: set<string>): Outcome {
    var cs := Ordered(s, w, q, route.strategy, Candidates(s, route, q, excluded, |route.targets|));
    var k := FirstTaken(w, q, cs);
    var blocked := BlockedBefore(w, q, cs, k);
    if k == |cs| then Outcome(None, |cs| > 0, blocked, excluded)
    else Outcome(Some(cs[k]), true, blocked,
                 excluded + Incapable(s, route, q, excluded, |route.targets|) + KeysBefore(cs, k))
  }

  // ---- As the scheduler does it ------------------------------------------------------------------------

  method CollectCandidates(s: Scheduler, route: Route, q: Request, excluded: set<string>) returns (cs: seq<Candidate>, skipped: set<string>)
    ensures cs == Candidates(s, route, q, excluded, |route.targets|)
    ensures skipped == Incapable(s, route, q, excluded, |route.targets|)
  {
    hide Offer, TargetKey;
    cs, skipped := [], {};
    var index := 0;
    while index < |route.targets|
      invariant 0 <= index <= |route.targets|
      invariant cs == Candidates(s, route, q, excluded, index) && skipped == Incapable(s, route, q, excluded, index)
    {
      var key := TargetKey(index, route.targets[index]);
      if key !in excluded {
        match Offer(s, route, index, q) {
          case None => skipped := skipped + {key};
          case Some(c) => cs := cs + [c];
        }
      }
      index := index + 1;
    }
  }

  /** The target branch of trySelect. */
  method TrySelectTargets(s: Scheduler, w: World, route: Route, q: Request, excluded: set<string>) returns (o: Outcome)
    ensures o == TryTargets(s, w, route, q, excluded)
  {
    hide Candidates, Incapable, Ordered, BlockedBefore, KeysBefore, Open, Takes;
    var authored, incapable := CollectCandidates(s, route, q, excluded);
    var cs := Ordered(s, w, q, route.strategy, authored);
    NothingBefore(w, q, cs);
    var skipped := excluded + incapable;
    var blocked := false;
    var i := 0;
    while i < |cs|
      invariant 0 <= i <= |cs|
      invariant forall j :: 0 <= j < i ==> !Takes(w, q, cs[j])
      invariant blocked == BlockedBefore(w, q, cs, i) && skipped == excluded + incapable + KeysBefore(cs, i)
    {
      if Takes(w, q, cs[i]) {
        FirstTakenIs(w, q, cs, i);
        return Outcome(Some(cs[i]), true, blocked, skipped);
      }
      OneMore(w, q, cs, i);
      if Open(w, q, cs[i]) { blocked := true; }
      skipped := skipped + {cs[i].key};
      i := i + 1;
    }
    FirstTakenIs(w, q, cs, i);
    return Outcome(None, |cs| > 0, blocked, excluded);
  }

  lemma NothingBefore(w: World, q: Request, cs: seq<Candidate>)
    ensures !BlockedBefore(w, q, cs, 0) && KeysBefore(cs, 0) == {}
  {
  }
}
