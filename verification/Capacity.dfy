/** Concurrency limits across hot reloads, and the wake-up of requests that wait for them. */
module Capacity {
  // The system is a transition system: requests, releases and reloads take their atomic
  // steps in any order.  Every configuration generation keeps its own account objects, but
  // all of them count on the same cell per account id, and all signal the same notifier.

  import opened GoText
  import Machines

  // ---- State ----------------------------------------------------------------------------

  datatype AccountConfig = AccountConfig(id: string, limit: int, identity: string)

  /** The runtime object of an account: its counter is a cell shared with other generations. */
  datatype Account = Account(cell: nat, limit: int, identity: string)

  datatype Generation = Generation(accounts: map<string, Account>, notifier: nat)

  /** A lease is held, then its counter is decremented, then its release is announced. */
  datatype Phase = Held | Decremented | Announced

  datatype Lease = Lease(id: string, cell: nat, notifier: nat, phase: Phase)

  /** A request: the generation it is pinned to, the notifier epoch it subscribed to, the
      accounts it found full since, a counter value it has loaded, and whether it sleeps. */
  datatype Request = Request(generation: nat, epoch: nat, full: set<string>, loaded: Option<(string, nat)>, asleep: bool)

  /** Counters, the registry of cells, generations, notifier epochs, leases, requests. */
  datatype State = State(
    cells: seq<nat>, registry: map<string, nat>, generations: seq<Generation>, epochs: seq<nat>,
    leases: seq<Lease>, requests: seq<Request>)

  const EMPTY := State([], map[], [], [], [], [])

  datatype Action =
    | Reload(configs: seq<AccountConfig>)
    | Arrive(generation: nat)
    | Subscribe(r: nat)
    | Load(r: nat, id: string)
    | Swap(r: nat)
    | Sleep(r: nat)
    | Wake(r: nat)
    | Decrement(l: nat)
    | Announce(l: nat)

  type Stepped = Machines.Outcome<State, ()>

  // ---- Reloads -----------------------------------------------------------------------------

  /** getOrCreate: entries are never removed. */
  function WithCell(s: State, id: string): State {
    if id in s.registry then s else s.(registry := s.registry[id := |s.cells|], cells := s.cells + [0])
  }

  function Previous(s: State): map<string, Account> {
    if |s.generations| == 0 then map[] else s.generations[|s.generations| - 1].accounts
  }

  /** The runtime of one account: an unchanged account keeps the state it had. */
  function Runtime(previous: map<string, Account>, s: State, c: AccountConfig): Account
    requires c.id in s.registry
  {
    var kept := c.id in previous && previous[c.id].identity == c.identity;
    Account(if kept then previous[c.id].cell else s.registry[c.id], c.limit, c.identity)
  }

  /** The accounts of a new generation, entered one by one. */
  function Built(s: State, previous: map<string, Account>, configs: seq<AccountConfig>): (State, map<string, Account>) {
    if |configs| == 0 then (s, map[])
    else
      var c := configs[|configs| - 1];
      var (s0, accounts) := Built(s, previous, configs[..|configs| - 1]);
      var s1 := WithCell(s0, c.id);
      (s1, accounts[c.id := Runtime(previous, s1, c)])
  }

  function WithGeneration(s: State, accounts: map<string, Account>): State {
    if |s.generations| == 0 then s.(epochs := s.epochs + [0], generations := [Generation(accounts, |s.epochs|)])
    else s.(generations := s.generations + [Generation(accounts, s.generations[|s.generations| - 1].notifier)])
  }

  /** NewSchedulerWithPrevious: the notifier and the registry are inherited. */
  function Reloaded(s: State, configs: seq<AccountConfig>): State {
    var (s1, accounts) := Built(s, Previous(s), configs);
    WithGeneration(s1, accounts)
  }

  // ---- Steps ---------------------------------------------------------------------------------

  function Of(s: State, r: nat): Generation
    requires r < |s.requests| && s.requests[r].generation < |s.generations|
  {
    s.generations[s.requests[r].generation]
  }

  predicate Pinned(s: State, r: nat) {
    r < |s.requests| && s.requests[r].generation < |s.generations|
    && Of(s, r).notifier < |s.epochs| && forall id :: id in Of(s, r).accounts ==> Of(s, r).accounts[id].cell < |s.cells|
  }

  function WithRequest(s: State, r: nat, q: Request): State
    requires r < |s.requests|
  {
    s.(requests := s.requests[r := q])
  }

  /** One more active request on an account, and the lease that stands for it. */
  function Taken(s: State, r: nat, id: string): State
    requires Pinned(s, r) && id in Of(s, r).accounts
  {
    var cell := Of(s, r).accounts[id].cell;
    WithRequest(s, r, s.requests[r].(loaded := None))
      .(cells := s.cells[cell := s.cells[cell] + 1], leases := s.leases + [Lease(id, cell, Of(s, r).notifier, Held)])
  }

  /** tryAcquire up to the comparison with the limit. */
  function LoadStep(s: State, r: nat, id: string): Stepped {
    if !Pinned(s, r) || s.requests[r].asleep || id !in Of(s, r).accounts then Machines.Reject
    else
      var q, a := s.requests[r], Of(s, r).accounts[id];
      if a.limit <= 0 then Machines.Advance(Taken(s, r, id), [])
      else if s.cells[a.cell] >= a.limit then Machines.Advance(WithRequest(s, r, q.(full := q.full + {id}, loaded := None)), [])
      else Machines.Advance(WithRequest(s, r, q.(loaded := Some((id, s.cells[a.cell])))), [])
  }

  /** The compare-and-swap: it fails when the counter has moved. */
  function SwapStep(s: State, r: nat): Stepped {
    if !Pinned(s, r) || s.requests[r].loaded.None? || s.requests[r].loaded.value.0 !in Of(s, r).accounts then Machines.Reject
    else
      var q := s.requests[r];
      var (id, seen) := q.loaded.value;
      if s.cells[Of(s, r).accounts[id].cell] == seen then Machines.Advance(Taken(s, r, id), [])
      else Machines.Advance(WithRequest(s, r, q.(loaded := None)), [])
  }

  function LeaseStep(s: State, l: nat, from: Phase): Stepped {
    if l >= |s.leases| || s.leases[l].phase != from then Machines.Reject
    else if from == Held then
      var cell := s.leases[l].cell;
      if cell >= |s.cells| || s.cells[cell] == 0 then Machines.Reject
      else Machines.Advance(s.(leases := s.leases[l := s.leases[l].(phase := Decremented)], cells := s.cells[cell := s.cells[cell] - 1]), [])
    else
      var n := s.leases[l].notifier;
      if n >= |s.epochs| then Machines.Reject
      else Machines.Advance(s.(leases := s.leases[l := s.leases[l].(phase := Announced)], epochs := s.epochs[n := s.epochs[n] + 1]), [])
  }

  function Step(s: State, a: Action): Stepped {
    match a
    case Reload(configs) => Machines.Advance(Reloaded(s, configs), [])
    case Arrive(g) =>
      if g >= |s.generations| then Machines.Reject
      else Machines.Advance(s.(requests := s.requests + [Request(g, 0, {}, None, false)]), [])
    case Subscribe(r) =>
      if !Pinned(s, r) || s.requests[r].asleep then Machines.Reject
      else Machines.Advance(WithRequest(s, r, s.requests[r].(epoch := s.epochs[Of(s, r).notifier], full := {}, loaded := None)), [])
    case Load(r, id) => LoadStep(s, r, id)
    case Swap(r) => SwapStep(s, r)
    case Sleep(r) =>
      if !Pinned(s, r) || s.requests[r].loaded.Some? || s.requests[r].asleep then Machines.Reject
      else Machines.Advance(WithRequest(s, r, s.requests[r].(asleep := true)), [])
    case Wake(r) =>
      if !Pinned(s, r) || !s.requests[r].asleep || s.epochs[Of(s, r).notifier] == s.requests[r].epoch then Machines.Reject
      else Machines.Advance(WithRequest(s, r, s.requests[r].(asleep := false)), [])
    case Decrement(l) => LeaseStep(s, l, Held)
    case Announce(l) => LeaseStep(s, l, Decremented)
  }

  function Run(actions: seq<Action>): Stepped {
    Machines.Run(Step, EMPTY, actions)
  }

  // ---- Counting leases -------------------------------------------------------------------------

  function One(l: Lease, cell: nat): nat {
    if l.cell == cell && l.phase == Held then 1 else 0
  }

  /** The leases held on a cell. */
  function Outstanding(leases: seq<Lease>, cell: nat): nat {
    if |leases| == 0 then 0 else Outstanding(leases[..|leases| - 1], cell) + One(leases[|leases| - 1], cell)
  }

  lemma OutstandingAppend(leases: seq<Lease>, l: Lease, cell: nat)
    ensures Outstanding(leases + [l], cell) == Outstanding(leases, cell) + One(l, cell)
  {
    assert (leases + [l])[..|leases|] == leases;
  }

  lemma {:induction false} OutstandingUpdate(leases: seq<Lease>, i: nat, l: Lease, cell: nat)
    requires i < |leases|
    ensures Outstanding(leases[i := l], cell) == Outstanding(leases, cell) - One(leases[i], cell) + One(l, cell)
  {
    var front := leases[..|leases| - 1];
    if i == |front| {
      assert leases[i := l][..|front|] == front;
    } else {
      assert leases[i := l][..|front|] == front[i := l];
      OutstandingUpdate(front, i, l, cell);
    }
  }

  // ---- Invariants ---------------------------------------------------------------------------------

  /** One cell per account id, wherever the id occurs. */
  predicate Shared(s: State) {
    (forall id :: id in s.registry ==> s.registry[id] < |s.cells|)
    && (forall i, j :: i in s.registry && j in s.registry && i != j ==> s.registry[i] != s.registry[j])
    && (forall g, id :: 0 <= g < |s.generations| && id in s.generations[g].accounts ==>
          id in s.registry && s.generations[g].accounts[id].cell == s.registry[id])
    && (forall l :: 0 <= l < |s.leases| ==> s.leases[l].id in s.registry && s.leases[l].cell == s.registry[s.leases[l].id])
  }

  /** Each counter is the number of leases held on it. */
  predicate Counted(s: State) {
    forall c :: 0 <= c < |s.cells| ==> s.cells[c] == Outstanding(s.leases, c)
  }

  /** There is one notifier, and everyone uses it. */
  predicate OneNotifier(s: State) {
    (|s.generations| > 0 ==> |s.epochs| == 1) && (|s.generations| == 0 ==> s.epochs == [] && s.leases == [] && s.requests == [])
    && (forall g :: 0 <= g < |s.generations| ==> s.generations[g].notifier == 0)
    && (forall l :: 0 <= l < |s.leases| ==> s.leases[l].notifier == 0)
    && (forall r :: 0 <= r < |s.requests| ==> s.requests[r].generation < |s.generations|)
  }

  /** A release on a cell has been counted and not yet announced. */
  predicate PendingOn(s: State, cell: nat) {
    exists l :: 0 <= l < |s.leases| && s.leases[l].phase == Decremented && s.leases[l].cell == cell
  }

  predicate StillFull(s: State, r: nat, id: string)
    requires r < |s.requests| && s.requests[r].generation < |s.generations|
  {
    id in Of(s, r).accounts && Of(s, r).accounts[id].cell < |s.cells| && 0 < Of(s, r).accounts[id].limit <= s.cells[Of(s, r).accounts[id].cell]
  }

  /** An account that was found full still is, or a release of it is about to be announced. */
  predicate Accounted(s: State, r: nat, id: string)
    requires r < |s.requests| && s.requests[r].generation < |s.generations|
  {
    StillFull(s, r, id) || (id in Of(s, r).accounts && PendingOn(s, Of(s, r).accounts[id].cell))
  }

  /** That holds of whatever a request found full since it subscribed, unless the notifier has
      moved on. */
  predicate NothingMissed(s: State) {
    forall r :: 0 <= r < |s.requests| && s.requests[r].generation < |s.generations| && |s.epochs| == 1
                && s.requests[r].epoch == s.epochs[0]
                ==> forall id :: id in s.requests[r].full ==> Accounted(s, r, id)
  }

  predicate Invariant(s: State) {
    Shared(s) && Counted(s) && OneNotifier(s) && NothingMissed(s)
    && forall r :: 0 <= r < |s.requests| && |s.epochs| == 1 ==> s.requests[r].epoch <= s.epochs[0]
  }

  // ---- Reloads keep everything ------------------------------------------------------------------------

  /** Only the registry and the cells have grown. */
  predicate Grown(s: State, t: State) {
    t == s.(registry := t.registry, cells := t.cells) && s.cells <= t.cells
    && forall id :: id in s.registry ==> id in t.registry && t.registry[id] == s.registry[id]
  }

  predicate Registered(s: State, accounts: map<string, Account>) {
    forall id :: id in accounts ==> id in s.registry && accounts[id].cell == s.registry[id]
  }

  lemma GrownTwice(a: State, b: State, c: State)
    requires Grown(a, b) && Grown(b, c)
    ensures Grown(a, c)
  {
  }

  lemma RuntimeRegistered(s: State, previous: map<string, Account>, s0: State, accounts: map<string, Account>, s1: State, c: AccountConfig)
    requires Registered(s, previous) && Registered(s0, accounts) && Grown(s, s1) && Grown(s0, s1) && c.id in s1.registry
    ensures Registered(s1, accounts[c.id := Runtime(previous, s1, c)])
  {
  }

  lemma {:induction false} BuiltKeeps(s: State, previous: map<string, Account>, configs: seq<AccountConfig>)
    requires Shared(s) && Counted(s) && Registered(s, previous)
    ensures var (s1, accounts) := Built(s, previous, configs);
      Grown(s, s1) && Shared(s1) && Counted(s1) && Registered(s1, accounts)
  {
    if |configs| > 0 {
      hide Shared, Counted, Registered, Grown, WithCell, Runtime;
      var c := configs[|configs| - 1];
      BuiltKeeps(s, previous, configs[..|configs| - 1]);
      var (s0, accounts) := Built(s, previous, configs[..|configs| - 1]);
      var s1 := WithCell(s0, c.id);
      WithCellKeeps(s0, c.id);
      GrownTwice(s, s0, s1);
      RuntimeRegistered(s, previous, s0, accounts, s1, c);
    }
  }

  lemma WithCellKeeps(s: State, id: string)
    requires Shared(s) && Counted(s)
    ensures var s1 := WithCell(s, id);
      Shared(s1) && Counted(s1) && id in s1.registry && Grown(s, s1)
  {
    if id !in s.registry { NoLeaseBeyond(s, |s.cells|, s.leases); }
  }

  lemma {:induction false} NoLeaseBeyond(s: State, cell: nat, leases: seq<Lease>)
    requires Shared(s) && cell >= |s.cells| && |leases| <= |s.leases| && leases == s.leases[..|leases|]
    ensures Outstanding(leases, cell) == 0
  {
    if |leases| > 0 {
      assert leases[|leases| - 1] == s.leases[|leases| - 1];
      NoLeaseBeyond(s, cell, leases[..|leases| - 1]);
    }
  }

  lemma PreviousRegistered(s: State)
    requires Shared(s)
    ensures Registered(s, Previous(s))
  {
  }

  lemma AccountedGrows(s: State, t: State, r: nat, id: string)
    requires r < |s.requests| && s.requests[r].generation < |s.generations| && Accounted(s, r, id)
    requires t.requests == s.requests && t.leases == s.leases && s.generations <= t.generations && s.cells <= t.cells
    ensures Accounted(t, r, id)
  {
  }

  lemma GenerationKeeps(s: State, s1: State, accounts: map<string, Account>)
    requires Invariant(s) && Grown(s, s1) && Shared(s1) && Counted(s1) && Registered(s1, accounts)
    ensures Invariant(WithGeneration(s1, accounts))
  {
    hide Accounted, Outstanding;
    var t := WithGeneration(s1, accounts);
    forall r, id | 0 <= r < |t.requests| && |t.epochs| == 1 && t.requests[r].epoch == t.epochs[0] && id in t.requests[r].full
      ensures Accounted(t, r, id)
    {
      AccountedGrows(s, t, r, id);
    }
  }

  lemma ReloadKeeps(s: State, configs: seq<AccountConfig>)
    requires Invariant(s)
    ensures Invariant(Reloaded(s, configs))
  {
    hide Shared, Counted, OneNotifier, NothingMissed, Built, WithGeneration, Previous, Registered;
    PreviousRegistered(s);
    BuiltKeeps(s, Previous(s), configs);
    var (s1, accounts) := Built(s, Previous(s), configs);
    GenerationKeeps(s, s1, accounts);
  }

  // ---- Requests and releases keep everything --------------------------------------------------------------

  lemma TakenKeeps(s: State, r: nat, id: string)
    requires Invariant(s) && Pinned(s, r) && id in Of(s, r).accounts
    ensures Invariant(Taken(s, r, id))
  {
    var t, a := Taken(s, r, id), Of(s, r).accounts[id];
    forall c | 0 <= c < |t.cells| ensures t.cells[c] == Outstanding(t.leases, c) {
      OutstandingAppend(s.leases, Lease(id, a.cell, Of(s, r).notifier, Held), c);
    }
    hide Outstanding;
    forall q | 0 <= q < |t.requests| && |t.epochs| == 1 && t.requests[q].epoch == t.epochs[0]
      ensures forall i :: i in t.requests[q].full ==> Accounted(t, q, i)
    {
      forall i | i in t.requests[q].full ensures Accounted(t, q, i) {
        assert Accounted(s, q, i);
        PendingStays(s, t, Of(s, q).accounts[i].cell);
      }
    }
  }

  lemma PendingStays(s: State, t: State, cell: nat)
    requires |s.leases| <= |t.leases| && forall l :: 0 <= l < |s.leases| && s.leases[l].phase == Decremented ==> t.leases[l] == s.leases[l]
    ensures PendingOn(s, cell) ==> PendingOn(t, cell)
  {
    if PendingOn(s, cell) {
      var l :| 0 <= l < |s.leases| && s.leases[l].phase == Decremented && s.leases[l].cell == cell;
      assert t.leases[l].phase == Decremented;
    }
  }

  /** Requests may forget what they found, subscribe afresh, or learn that an account is full. */
  lemma RequestKeeps(s: State, r: nat, q: Request)
    requires Invariant(s) && r < |s.requests| && q.generation == s.requests[r].generation
    requires |s.epochs| == 1 && q.epoch <= s.epochs[0]
    requires q.epoch == s.epochs[0] ==>
               forall id :: id in q.full ==> (id in s.requests[r].full && q.epoch == s.requests[r].epoch) || StillFull(s, r, id)
    ensures Invariant(WithRequest(s, r, q))
  {
    var t := WithRequest(s, r, q);
    forall p | 0 <= p < |t.requests| && t.requests[p].epoch == t.epochs[0]
      ensures forall id :: id in t.requests[p].full ==> Accounted(t, p, id)
    {
      forall id | id in t.requests[p].full ensures Accounted(t, p, id) { assert Accounted(s, p, id); }
    }
  }

  lemma DecrementKeeps(s: State, l: nat)
    requires Invariant(s) && LeaseStep(s, l, Held).Advance?
    ensures Invariant(LeaseStep(s, l, Held).next)
  {
    var t := LeaseStep(s, l, Held).next;
    assert t.leases[l].phase == Decremented;
    forall c | 0 <= c < |t.cells| ensures t.cells[c] == Outstanding(t.leases, c) {
      OutstandingUpdate(s.leases, l, t.leases[l], c);
    }
    hide Outstanding;
    assert PendingOn(t, s.leases[l].cell);
    forall p | 0 <= p < |t.requests| && t.requests[p].epoch == t.epochs[0]
      ensures forall id :: id in t.requests[p].full ==> Accounted(t, p, id)
    {
      forall id | id in t.requests[p].full ensures Accounted(t, p, id) {
        assert Accounted(s, p, id);
        PendingStays(s, t, Of(s, p).accounts[id].cell);
      }
    }
  }

  lemma AnnounceKeeps(s: State, l: nat)
    requires Invariant(s) && LeaseStep(s, l, Decremented).Advance?
    ensures Invariant(LeaseStep(s, l, Decremented).next)
  {
    var t := LeaseStep(s, l, Decremented).next;
    forall c | 0 <= c < |t.cells| ensures t.cells[c] == Outstanding(t.leases, c) {
      OutstandingUpdate(s.leases, l, t.leases[l], c);
    }
    assert forall r :: 0 <= r < |t.requests| ==> t.requests[r].epoch < t.epochs[0];
  }

  lemma StepKeeps(s: State, a: Action)
    requires Invariant(s) && Step(s, a).Advance?
    ensures Invariant(Step(s, a).next)
  {
    hide Invariant;
    match a {
      case Reload(configs) => ReloadKeeps(s, configs);
      case Arrive(g) => ArriveKeeps(s, g);
      case Subscribe(r) => SubscribeKeeps(s, r);
      case Load(r, id) => LoadKeeps(s, r, id);
      case Swap(r) => SwapKeeps(s, r);
      case Sleep(r) => SleepKeeps(s, r, true);
      case Wake(r) => SleepKeeps(s, r, false);
      case Decrement(l) => DecrementKeeps(s, l);
      case Announce(l) => AnnounceKeeps(s, l);
    }
  }

  lemma ArriveKeeps(s: State, g: nat)
    requires Invariant(s) && Step(s, Arrive(g)).Advance?
    ensures Invariant(Step(s, Arrive(g)).next)
  {
    var t := Step(s, Arrive(g)).next;
    forall p | 0 <= p < |t.requests| && t.requests[p].epoch == t.epochs[0]
      ensures forall id :: id in t.requests[p].full ==> Accounted(t, p, id)
    {
      forall id | id in t.requests[p].full ensures Accounted(t, p, id) { assert Accounted(s, p, id); }
    }
  }

  lemma SubscribeKeeps(s: State, r: nat)
    requires Invariant(s) && Step(s, Subscribe(r)).Advance?
    ensures Invariant(Step(s, Subscribe(r)).next)
  {
    RequestKeeps(s, r, s.requests[r].(epoch := s.epochs[0], full := {}, loaded := None));
  }

  lemma LoadKeeps(s: State, r: nat, id: string)
    requires Invariant(s) && LoadStep(s, r, id).Advance?
    ensures Invariant(LoadStep(s, r, id).next)
  {
    var q, a := s.requests[r], Of(s, r).accounts[id];
    if a.limit <= 0 { TakenKeeps(s, r, id); }
    else if s.cells[a.cell] >= a.limit { RequestKeeps(s, r, q.(full := q.full + {id}, loaded := None)); }
    else { RequestKeeps(s, r, q.(loaded := Some((id, s.cells[a.cell])))); }
  }

  lemma SwapKeeps(s: State, r: nat)
    requires Invariant(s) && SwapStep(s, r).Advance?
    ensures Invariant(SwapStep(s, r).next)
  {
    var q := s.requests[r];
    var (id, seen) := q.loaded.value;
    if s.cells[Of(s, r).accounts[id].cell] == seen { TakenKeeps(s, r, id); } else { RequestKeeps(s, r, q.(loaded := None)); }
  }

  lemma SleepKeeps(s: State, r: nat, asleep: bool)
    requires Invariant(s) && Pinned(s, r)
    ensures Invariant(WithRequest(s, r, s.requests[r].(asleep := asleep)))
  {
    RequestKeeps(s, r, s.requests[r].(asleep := asleep));
  }

  lemma {:induction false} RunKeeps(actions: seq<Action>)
    requires Run(actions).Advance?
    ensures Invariant(Run(actions).next)
  {
    if |actions| > 0 {
      hide Step, Invariant;
      RunKeeps(actions[..|actions| - 1]);
      StepKeeps(Run(actions[..|actions| - 1]).next, actions[|actions| - 1]);
    } else {
      assert Invariant(EMPTY);
    }
  }

  // ---- Main results ------------------------------------------------------------------------------------------

  /** No wake-up is lost: as long as the notifier has not moved since a sleeping request
      subscribed, every account it found full is still full, or a release of that very
      account has been counted and is about to be announced. */
  lemma NoLostWakeUp(actions: seq<Action>, r: nat, id: string)
    requires Run(actions).Advance? && r < |Run(actions).next.requests| && Run(actions).next.requests[r].asleep
    requires var s := Run(actions).next; s.epochs != [] && s.requests[r].epoch == s.epochs[0] && id in s.requests[r].full
    ensures Run(actions).next.requests[r].generation < |Run(actions).next.generations|
    ensures var s := Run(actions).next;
      StillFull(s, r, id) || (id in Of(s, r).accounts && PendingOn(s, Of(s, r).accounts[id].cell))
  {
    RunKeeps(actions);
    hide Run;
    assert Accounted(Run(actions).next, r, id);
  }

  /** And the announcement wakes everyone: whoever sleeps then may go on. */
  lemma AnnounceWakes(actions: seq<Action>, l: nat, r: nat)
    requires Run(actions).Advance? && LeaseStep(Run(actions).next, l, Decremented).Advance?
    requires r < |Run(actions).next.requests| && Run(actions).next.requests[r].asleep
    ensures Step(LeaseStep(Run(actions).next, l, Decremented).next, Wake(r)).Advance?
  {
    RunKeeps(actions);
    hide Run;
    var s := Run(actions).next;
    var t := LeaseStep(s, l, Decremented).next;
    var g := t.generations[s.requests[r].generation];
    forall id | id in g.accounts ensures g.accounts[id].cell < |t.cells| {
      assert id in s.registry && g.accounts[id].cell == s.registry[id];
    }
    assert g.notifier == 0 && s.leases[l].notifier == 0;
    assert t.epochs[0] == s.epochs[0] + 1;
  }

  lemma {:induction false} HeldCounts(leases: seq<Lease>, l: nat)
    requires l < |leases| && leases[l].phase == Held
    ensures Outstanding(leases, leases[l].cell) > 0
  {
    if l < |leases| - 1 {
      assert leases[..|leases| - 1][l] == leases[l];
      HeldCounts(leases[..|leases| - 1], l);
    }
  }

  /** A lease that is held can always be given back: no counter goes below zero. */
  lemma HeldMayReturn(actions: seq<Action>, l: nat)
    requires Run(actions).Advance? && l < |Run(actions).next.leases| && Run(actions).next.leases[l].phase == Held
    ensures LeaseStep(Run(actions).next, l, Held).Advance?
  {
    RunKeeps(actions);
    hide Run;
    HeldCounts(Run(actions).next.leases, l);
  }

  /** Every generation that knows an account counts it on the same cell, whatever was
      removed and added in between, and the cell holds the number of outstanding leases. */
  lemma OneCounterPerAccount(actions: seq<Action>, g: nat, h: nat, id: string)
    requires Run(actions).Advance?
    requires var s := Run(actions).next;
      g < |s.generations| && h < |s.generations| && id in s.generations[g].accounts && id in s.generations[h].accounts
    ensures var s := Run(actions).next;
      var cell := s.generations[g].accounts[id].cell;
      cell == s.generations[h].accounts[id].cell && cell < |s.cells| && s.cells[cell] == OutstandingOf(s.leases, id)
  {
    RunKeeps(actions);
    var s := Run(actions).next;
    LeasesOfCell(s, s.leases, id);
  }

  function OutstandingOf(leases: seq<Lease>, id: string): nat {
    if |leases| == 0 then 0
    else
      var l := leases[|leases| - 1];
      OutstandingOf(leases[..|leases| - 1], id) + (if l.id == id && l.phase == Held then 1 else 0)
  }

  lemma {:induction false} LeasesOfCell(s: State, leases: seq<Lease>, id: string)
    requires Shared(s) && id in s.registry && |leases| <= |s.leases| && leases == s.leases[..|leases|]
    ensures Outstanding(leases, s.registry[id]) == OutstandingOf(leases, id)
  {
    if |leases| > 0 {
      assert leases[|leases| - 1] == s.leases[|leases| - 1];
      LeasesOfCell(s, leases[..|leases| - 1], id);
    }
  }

  /** What a request has loaded was below the limit it was compared with. */
  predicate LoadsBelow(s: State) {
    forall r :: 0 <= r < |s.requests| && s.requests[r].loaded.Some? ==> LoadedBelow(s, r)
  }

  predicate LoadedBelow(s: State, r: nat)
    requires r < |s.requests| && s.requests[r].loaded.Some?
  {
    var (id, seen) := s.requests[r].loaded.value;
    s.requests[r].generation < |s.generations| && id in Of(s, r).accounts && seen < Of(s, r).accounts[id].limit
  }

  lemma StepLoadsBelow(s: State, a: Action)
    requires LoadsBelow(s) && Step(s, a).Advance?
    ensures LoadsBelow(Step(s, a).next)
  {
    var t := Step(s, a).next;
    GenerationsStay(s, a);
    forall r | 0 <= r < |t.requests| && t.requests[r].loaded.Some? ensures LoadedBelow(t, r) {
      NewLoads(s, a, r);
      var g := s.requests[r].generation;
      assert g < |s.generations| ==> t.generations[..|s.generations|][g] == t.generations[g];
    }
  }

  /** Where a loaded value comes from. */
  lemma NewLoads(s: State, a: Action, r: nat)
    requires LoadsBelow(s) && Step(s, a).Advance? && r < |Step(s, a).next.requests| && Step(s, a).next.requests[r].loaded.Some?
    ensures r < |s.requests| && s.requests[r].generation < |s.generations|
    ensures var (id, seen) := Step(s, a).next.requests[r].loaded.value; id in Of(s, r).accounts && seen < Of(s, r).accounts[id].limit
  {
    var t := Step(s, a).next;
    match a {
      case Reload(configs) =>
        BuiltState(s, Previous(s), configs);
        assert LoadedBelow(s, r);
      case Arrive(g) => if r < |s.requests| { assert LoadedBelow(s, r); }
      case Load(q, id) => if q != r { assert LoadedBelow(s, r); }
      case Swap(q) => if q != r { assert LoadedBelow(s, r); }
      case Subscribe(q) => if q != r { assert LoadedBelow(s, r); }
      case Sleep(q) => assert LoadedBelow(s, r);
      case Wake(q) => assert LoadedBelow(s, r);
      case Decrement(l) => assert LoadedBelow(s, r);
      case Announce(l) => assert LoadedBelow(s, r);
    }
  }

  lemma {:induction false} BuiltState(s: State, previous: map<string, Account>, configs: seq<AccountConfig>)
    ensures var s1 := Built(s, previous, configs).0; s1 == s.(registry := s1.registry, cells := s1.cells)
  {
    if |configs| > 0 { BuiltState(s, previous, configs[..|configs| - 1]); }
  }

  /** Generations are never changed once they are published. */
  lemma GenerationsStay(s: State, a: Action)
    requires Step(s, a).Advance?
    ensures var t := Step(s, a).next;
      |s.generations| <= |t.generations| && t.generations[..|s.generations|] == s.generations
      && |s.requests| <= |t.requests| && (forall r :: 0 <= r < |s.requests| ==> t.requests[r].generation == s.requests[r].generation)
  {
    if a.Reload? { BuiltState(s, Previous(s), a.configs); }
  }

  lemma {:induction false} RunLoadsBelow(actions: seq<Action>)
    requires Run(actions).Advance?
    ensures LoadsBelow(Run(actions).next)
  {
    if |actions| > 0 {
      hide Step, LoadsBelow;
      RunLoadsBelow(actions[..|actions| - 1]);
      StepLoadsBelow(Run(actions[..|actions| - 1]).next, actions[|actions| - 1]);
    }
  }

  /** A bounded acquire leaves the counter at most at the limit of the generation that
      acquired: other generations may have other limits, and it does not wait for them. */
  lemma AcquireWithinLimit(actions: seq<Action>, r: nat)
    requires Run(actions).Advance? && SwapStep(Run(actions).next, r).Advance?
    requires |SwapStep(Run(actions).next, r).next.leases| > |Run(actions).next.leases|
    ensures var s, t := Run(actions).next, SwapStep(Run(actions).next, r).next;
      var a := Of(s, r).accounts[s.requests[r].loaded.value.0];
      t.cells[a.cell] == s.cells[a.cell] + 1 <= a.limit
  {
    RunLoadsBelow(actions);
    assert LoadedBelow(Run(actions).next, r);
  }
}
