/** Refreshing a rejected credential, which requests share. */
module CredentialRefresh {
  // Requests that meet the same rejection share one refresh and its result for a minute.
  // What is proved is that a credential is never refreshed twice at a time, nor again before
  // that minute is over, and that nobody is told of a refresh that did not happen.

  import opened GoText
  import Machines

  const MAX_CALLS: nat := 128

  /** Nanoseconds, as time.Duration counts them. */
  const MINUTE: int := 60_000_000_000

  /** One refresh, from its start on; `expires` is absent until it has ended. `cancelled`
      says that the request that ran it had been given up by then. */
  datatype Call = Call(key: string, started: int, ok: bool, cancelled: bool, expires: Option<int>)

  /** The table of calls and every call there ever was. */
  datatype Table = Table(calls: map<string, nat>, records: seq<Call>)

  /** What a request is told on entry: run the refresh, wait for it, or do without. */
  datatype Entry = Lead(call: nat) | Join(call: nat) | Decline

  predicate Expired(r: Call, now: int) {
    r.expires.Some? && now > r.expires.value
  }

  function Unexpired(t: Table, now: int): map<string, nat> {
    map key | key in t.calls && (t.calls[key] < |t.records| ==> !Expired(t.records[t.calls[key]], now)) :: t.calls[key]
  }

  function EntryFor(t: Table, key: string, now: int, cancelled: bool): Entry {
    var calls := Unexpired(t, now);
    if key in calls then Join(calls[key])
    else if |calls| >= MAX_CALLS || cancelled then Decline
    else Lead(|t.records|)
  }

  function Entered(t: Table, key: string, now: int, cancelled: bool): Table {
    var calls := Unexpired(t, now);
    if EntryFor(t, key, now, cancelled).Lead?
    then Table(calls[key := |t.records|], t.records + [Call(key, now, false, false, None)])
    else t.(calls := calls)
  }

  function Ended(t: Table, call: nat, ok: bool, now: int, cancelled: bool): Table
    requires call < |t.records|
  {
    var r := t.records[call];
    Table(if cancelled then t.calls - {r.key} else t.calls,
          t.records[call := r.(ok := ok, cancelled := cancelled, expires := Some(now + MINUTE))])
  }

  // ---- The object ---------------------------------------------------------------------------

  class Coordinator {
    var calls: map<string, nat>
    var records: seq<Call>

    constructor ()
      ensures Contents() == Table(map[], [])
    {
      calls, records := map[], [];
    }

    function Contents(): Table
      reads this
    {
      Table(calls, records)
    }

    /** The loop that forgets expired calls. */
    method Prune(now: int)
      modifies `calls
      ensures calls == Unexpired(old(Contents()), now)
    {
      var rest: set<string> := calls.Keys;
      ghost var before := Contents();
      while rest != {}
        invariant rest <= before.calls.Keys
        invariant forall key :: key in calls <==> key in before.calls && (key in rest || key in Unexpired(before, now))
        invariant forall key :: key in calls ==> calls[key] == before.calls[key]
        decreases rest
      {
        SomeKey(rest);
        var key :| key in rest;
        rest := rest - {key};
        if calls[key] < |records| && Expired(records[calls[key]], now) { calls := calls - {key}; }
      }
      assert calls == Unexpired(before, now);
    }

    /** refresh, up to where the lock is first given up. */
    method Enter(key: string, now: int, cancelled: bool) returns (e: Entry)
      modifies this
      ensures e == EntryFor(old(Contents()), key, now, cancelled)
      ensures Contents() == Entered(old(Contents()), key, now, cancelled)
    {
      Prune(now);
      if key in calls { return Join(calls[key]); }
      if |calls| >= MAX_CALLS || cancelled { return Decline; }
      e := Lead(|records|);
      calls := calls[key := |records|];
      records := records + [Call(key, now, false, false, None)];
    }

    /** refresh, from where the refresh itself has returned. */
    method End(call: nat, ok: bool, now: int, cancelled: bool)
      requires call < |records|
      modifies this
      ensures Contents() == Ended(old(Contents()), call, ok, now, cancelled)
    {
      var r := records[call];
      records := records[call := r.(ok := ok, cancelled := cancelled, expires := Some(now + MINUTE))];
      if cancelled { calls := calls - {r.key}; }
    }
  }

  lemma SomeKey(keys: set<string>)
    ensures keys != {} ==> exists k :: k in keys
  {
    if forall k :: k !in keys { assert keys == {}; }
  }

  // ---- Any number of requests ------------------------------------------------------------------

  datatype Progress = Leads | Waits | Told(ok: bool)

  /** A request that asked for a refresh. */
  datatype Caller = Caller(key: string, call: Option<nat>, progress: Progress)

  datatype State = State(clock: int, table: Table, callers: seq<Caller>)

  datatype Action =
    | Ask(key: string, now: int, cancelled: bool)
    | Finish(caller: nat, ok: bool, now: int, cancelled: bool, late: bool)
    | Hear(caller: nat, cancelled: bool)
    | GiveUp(caller: nat)

  type Stepped = Machines.Outcome<State, ()>

  const NEW := State(0, Table(map[], []), [])

  function Asked(key: string, e: Entry): Caller {
    match e
    case Lead(n) => Caller(key, Some(n), Leads)
    case Join(n) => Caller(key, Some(n), Waits)
    case Decline => Caller(key, None, Told(false))
  }

  predicate Is(s: State, c: nat, p: Progress) {
    c < |s.callers| && s.callers[c].progress == p && s.callers[c].call.Some? && s.callers[c].call.value < |s.table.records|
  }

  function Answer(s: State, c: nat, ok: bool): State
    requires c < |s.callers|
  {
    s.(callers := s.callers[c := s.callers[c].(progress := Told(ok))])
  }

  /** Requests enter, finish the refresh they run, hear of its end, or are cancelled, in any
      order; the clock does not go back. A request that is cancelled `late` has left its
      result to others already. */
  function Step(s: State, a: Action): Stepped {
    match a
    case Ask(key, now, cancelled) =>
      if now < s.clock then Machines.Reject
      else Machines.Advance(State(now, Entered(s.table, key, now, cancelled),
                                  s.callers + [Asked(key, EntryFor(s.table, key, now, cancelled))]), [])
    case Finish(c, ok, now, cancelled, late) =>
      if now < s.clock || !Is(s, c, Leads) then Machines.Reject
      else Machines.Advance(Answer(State(now, Ended(s.table, s.callers[c].call.value, ok, now, cancelled), s.callers), c, ok && !cancelled && !late), [])
    case Hear(c, cancelled) =>
      if !Is(s, c, Waits) || s.table.records[s.callers[c].call.value].expires.None? then Machines.Reject
      else Machines.Advance(Answer(s, c, s.table.records[s.callers[c].call.value].ok && !cancelled), [])
    case GiveUp(c) =>
      if !Is(s, c, Waits) then Machines.Reject else Machines.Advance(Answer(s, c, false), [])
  }

  function Run(actions: seq<Action>): Stepped {
    Machines.Run(Step, NEW, actions)
  }

  // ---- What every run keeps ----------------------------------------------------------------------

  /** Entries stand for calls of their own key, and there are at most 128. */
  predicate Sound(t: Table) {
    |t.calls| <= MAX_CALLS && forall key :: key in t.calls ==> t.calls[key] < |t.records| && t.records[t.calls[key]].key == key
  }

  predicate Current(t: Table, n: nat)
    requires n < |t.records|
  {
    t.records[n].key in t.calls && t.calls[t.records[n].key] == n
  }

  /** A call in flight is the entry of its key; one that ended in earnest is, or has expired. */
  predicate Remembered(t: Table, clock: int) {
    forall n :: 0 <= n < |t.records| ==> StillKnown(t, clock, n)
  }

  predicate StillKnown(t: Table, clock: int, n: nat)
    requires n < |t.records|
  {
    match t.records[n].expires
    case None => Current(t, n)
    case Some(expires) => t.records[n].cancelled || Current(t, n) || expires < clock
  }

  /** Of two refreshes of one credential, the first had ended before the second began, and
      more than a minute earlier unless it was cancelled. */
  predicate Spaced(rs: seq<Call>) {
    forall i, j :: 0 <= i < j < |rs| && rs[i].key == rs[j].key ==>
      rs[i].expires.Some? && (rs[i].cancelled || rs[i].expires.value < rs[j].started)
  }

  predicate CallerSound(t: Table, c: Caller) {
    match c.progress
    case Told(ok) => ok ==> c.call.Some? && c.call.value < |t.records| && t.records[c.call.value].key == c.key
                            && t.records[c.call.value].expires.Some? && t.records[c.call.value].ok
    case Leads => c.call.Some? && c.call.value < |t.records| && t.records[c.call.value].key == c.key && t.records[c.call.value].expires.None?
    case Waits => c.call.Some? && c.call.value < |t.records| && t.records[c.call.value].key == c.key
  }

  /** No two requests run the same refresh. */
  predicate LeadersDiffer(callers: seq<Caller>) {
    forall i, j :: 0 <= i < j < |callers| && callers[i].progress == Leads && callers[j].progress == Leads ==> callers[i].call != callers[j].call
  }

  predicate Invariant(s: State) {
    Sound(s.table) && Remembered(s.table, s.clock) && Spaced(s.table.records)
    && (forall c :: 0 <= c < |s.callers| ==> CallerSound(s.table, s.callers[c])) && LeadersDiffer(s.callers)
  }

  // ---- One step at a time ------------------------------------------------------------------------

  lemma UnexpiredAre(t: Table, now: int)
    requires Sound(t)
    ensures Sound(t.(calls := Unexpired(t, now)))
  {
    var calls := Unexpired(t, now);
    assert calls.Keys <= t.calls.Keys;
    FewerKeys(calls.Keys, t.calls.Keys);
  }

  lemma FewerKeys(a: set<string>, b: set<string>)
    requires a <= b
    ensures |a| <= |b|
  {
    assert b == a + (b - a);
  }

  /** Forgetting what has expired. */
  lemma PrunedKeeps(t: Table, clock: int, now: int)
    requires Sound(t) && Remembered(t, clock) && clock <= now
    ensures Sound(t.(calls := Unexpired(t, now))) && Remembered(t.(calls := Unexpired(t, now)), now)
  {
    UnexpiredAre(t, now);
    var v := t.(calls := Unexpired(t, now));
    forall n | 0 <= n < |t.records| ensures StillKnown(v, now, n) {
      assert StillKnown(t, clock, n);
    }
  }

  /** A new call for a key without an entry. */
  function Led(v: Table, key: string, now: int): Table {
    Table(v.calls[key := |v.records|], v.records + [Call(key, now, false, false, None)])
  }

  lemma LedSound(v: Table, key: string, now: int)
    requires Sound(v) && key !in v.calls && |v.calls| < MAX_CALLS
    ensures Sound(Led(v, key, now))
  {
    assert Led(v, key, now).calls.Keys == v.calls.Keys + {key};
  }

  lemma LedRemembered(v: Table, key: string, now: int)
    requires Remembered(v, now) && key !in v.calls
    ensures Remembered(Led(v, key, now), now)
  {
    var u := Led(v, key, now);
    forall n | 0 <= n < |u.records| ensures StillKnown(u, now, n) {
      if n < |v.records| {
        assert StillKnown(v, now, n) && u.records[n] == v.records[n];
        assert Current(v, n) ==> v.records[n].key != key;
      }
    }
  }

  lemma LedSpaced(v: Table, key: string, now: int)
    requires Remembered(v, now) && Spaced(v.records) && key !in v.calls
    ensures Spaced(Led(v, key, now).records)
  {
    forall n | 0 <= n < |v.records| && v.records[n].key == key
      ensures v.records[n].expires.Some? && (v.records[n].cancelled || v.records[n].expires.value < now)
    {
      assert StillKnown(v, now, n) && !Current(v, n);
    }
  }

  lemma LedKeeps(v: Table, key: string, now: int)
    requires Sound(v) && Remembered(v, now) && Spaced(v.records) && key !in v.calls && |v.calls| < MAX_CALLS
    ensures var u := Led(v, key, now); Sound(u) && Remembered(u, now) && Spaced(u.records)
  {
    hide Sound, Remembered, Spaced, Led;
    LedSound(v, key, now);
    LedRemembered(v, key, now);
    LedSpaced(v, key, now);
  }

  lemma EnteredKeeps(t: Table, clock: int, key: string, now: int, cancelled: bool)
    requires Sound(t) && Remembered(t, clock) && Spaced(t.records) && clock <= now
    ensures var u := Entered(t, key, now, cancelled);
      Sound(u) && Remembered(u, now) && Spaced(u.records)
      && |t.records| <= |u.records| && u.records[..|t.records|] == t.records
  {
    PrunedKeeps(t, clock, now);
    hide Unexpired, Remembered, Spaced, Sound;
    var v := t.(calls := Unexpired(t, now));
    if EntryFor(t, key, now, cancelled).Lead? { LedKeeps(v, key, now); }
  }

  lemma EndedKeeps(t: Table, clock: int, call: nat, ok: bool, now: int, cancelled: bool)
    requires Sound(t) && Remembered(t, clock) && Spaced(t.records) && clock <= now
    requires call < |t.records| && t.records[call].expires.None?
    ensures var u := Ended(t, call, ok, now, cancelled);
      Sound(u) && Remembered(u, now) && Spaced(u.records) && |u.records| == |t.records|
  {
    var u := Ended(t, call, ok, now, cancelled);
    var r := t.records[call];
    assert StillKnown(t, clock, call);
    FewerKeys(u.calls.Keys, t.calls.Keys);
    forall n | 0 <= n < |u.records| ensures StillKnown(u, now, n) {
      assert StillKnown(t, clock, n);
      if n != call {
        assert u.records[n] == t.records[n];
        assert Current(t, n) ==> t.records[n].key != r.key;
      }
    }
    forall i, j | 0 <= i < j < |u.records| && u.records[i].key == u.records[j].key
      ensures u.records[i].expires.Some? && (u.records[i].cancelled || u.records[i].expires.value < u.records[j].started)
    {
      assert t.records[i].key == t.records[j].key;
    }
  }

  /** More calls leave what is said to callers as it was. */
  lemma CallerKept(t: Table, u: Table, c: Caller)
    requires CallerSound(t, c) && |t.records| <= |u.records| && u.records[..|t.records|] == t.records
    ensures CallerSound(u, c)
  {
    assert forall n :: 0 <= n < |t.records| ==> u.records[..|t.records|][n] == u.records[n];
  }

  lemma LeaderAdded(t: Table, callers: seq<Caller>, c: Caller)
    requires LeadersDiffer(callers) && forall i :: 0 <= i < |callers| ==> CallerSound(t, callers[i])
    requires c.progress == Leads ==> c.call == Some(|t.records|)
    ensures LeadersDiffer(callers + [c])
  {
    forall i | 0 <= i < |callers| && callers[i].progress == Leads ensures callers[i].call != Some(|t.records|) {
      assert CallerSound(t, callers[i]);
    }
  }

  lemma AskKeeps(s: State, key: string, now: int, cancelled: bool)
    requires Invariant(s) && s.clock <= now
    ensures Invariant(Step(s, Ask(key, now, cancelled)).next)
  {
    EnteredKeeps(s.table, s.clock, key, now, cancelled);
    EntrySound(s.table, key, now, cancelled);
    LeadsAnew(s.table, key, now, cancelled);
    hide Remembered, Spaced, Entered, EntryFor, Sound, CallerSound, LeadersDiffer;
    var u, c := Entered(s.table, key, now, cancelled), Asked(key, EntryFor(s.table, key, now, cancelled));
    LeaderAdded(s.table, s.callers, c);
    forall d | 0 <= d < |s.callers| ensures CallerSound(u, s.callers[d]) { CallerKept(s.table, u, s.callers[d]); }
  }

  /** Whoever is told to lead leads a call of his own; whoever waits waits for one of the key. */
  lemma EntrySound(t: Table, key: string, now: int, cancelled: bool)
    requires Sound(t)
    ensures CallerSound(Entered(t, key, now, cancelled), Asked(key, EntryFor(t, key, now, cancelled)))
  {
    UnexpiredAre(t, now);
  }

  lemma LeadsAnew(t: Table, key: string, now: int, cancelled: bool)
    ensures var e := EntryFor(t, key, now, cancelled); e.Lead? ==> e.call == |t.records|
  {
  }

  lemma FinishKeeps(s: State, c: nat, ok: bool, now: int, cancelled: bool, late: bool)
    requires Invariant(s) && s.clock <= now && Is(s, c, Leads)
    ensures Invariant(Step(s, Finish(c, ok, now, cancelled, late)).next)
  {
    var call := s.callers[c].call.value;
    assert CallerSound(s.table, s.callers[c]);
    EndedKeeps(s.table, s.clock, call, ok, now, cancelled);
    hide Remembered, Spaced, Sound;
    var t := Step(s, Finish(c, ok, now, cancelled, late)).next;
    forall d | 0 <= d < |t.callers| ensures CallerSound(t.table, t.callers[d]) {
      assert CallerSound(s.table, s.callers[d]);
      assert d != c && s.callers[d].progress == Leads ==> s.callers[d].call != s.callers[c].call;
    }
  }

  lemma StepKeeps(s: State, a: Action)
    requires Invariant(s) && Step(s, a).Advance?
    ensures Invariant(Step(s, a).next)
  {
    match a {
      case Ask(key, now, cancelled) => AskKeeps(s, key, now, cancelled);
      case Finish(c, ok, now, cancelled, late) => FinishKeeps(s, c, ok, now, cancelled, late);
      case Hear(c, cancelled) =>
        hide Remembered, Spaced, Sound;
        assert CallerSound(s.table, s.callers[c]);
      case GiveUp(c) =>
        hide Remembered, Spaced, Sound;
        assert CallerSound(s.table, s.callers[c]);
    }
  }

  lemma {:induction false} RunKeeps(actions: seq<Action>)
    requires Run(actions).Advance?
    ensures Invariant(Run(actions).next)
  {
    if |actions| > 0 {
      hide Step, Invariant;
      RunKeeps(actions[..|actions| - 1]);
      StepKeeps(Run(actions[..|actions| - 1]).next, actions[|actions| - 1]);
    } else {
      assert Invariant(NEW);
    }
  }

  // ---- Main results --------------------------------------------------------------------------------

  /** A credential is never refreshed twice at a time, nor within a minute of a refresh that
      was seen through; and at most 128 refreshes are in flight or remembered. */
  lemma RefreshesAreSpaced(actions: seq<Action>, i: nat, j: nat)
    requires Run(actions).Advance?
    requires i < j < |Run(actions).next.table.records|
    requires var rs := Run(actions).next.table.records; rs[i].key == rs[j].key
    ensures var rs := Run(actions).next.table.records;
      rs[i].expires.Some? && (rs[i].cancelled || rs[i].expires.value < rs[j].started)
    ensures |Run(actions).next.table.calls| <= MAX_CALLS
  {
    RunKeeps(actions);
    hide Run;
  }

  /** While a refresh is in flight, everyone else who asks for it waits for that one. */
  lemma OthersJoin(actions: seq<Action>, n: nat, now: int, cancelled: bool)
    requires Run(actions).Advance? && n < |Run(actions).next.table.records|
    requires Run(actions).next.table.records[n].expires.None?
    ensures EntryFor(Run(actions).next.table, Run(actions).next.table.records[n].key, now, cancelled) == Join(n)
  {
    RunKeeps(actions);
    hide Run;
    assert StillKnown(Run(actions).next.table, Run(actions).next.clock, n);
  }

  /** Whoever is told that the credential was refreshed asked for that credential, and a
      refresh of it has succeeded. */
  lemma ToldTheTruth(actions: seq<Action>, c: nat)
    requires Run(actions).Advance? && c < |Run(actions).next.callers|
    requires Run(actions).next.callers[c].progress == Told(true)
    ensures var t, d := Run(actions).next.table, Run(actions).next.callers[c];
      d.call.Some? && d.call.value < |t.records| && t.records[d.call.value].key == d.key
      && t.records[d.call.value].expires.Some? && t.records[d.call.value].ok
  {
    RunKeeps(actions);
    hide Run;
    assert CallerSound(Run(actions).next.table, Run(actions).next.callers[c]);
  }
}
