/** The memory that request bodies may use. */
module BodyLease {
  // Every request holds a lease on one shared byte counter; the budget is computed with 64-bit
  // arithmetic that saturates instead of wrapping.

  import opened GoText
  import Machines

  const MAX_INT64: int := 0x7FFF_FFFF_FFFF_FFFF
  const GROWTH: int := 524288
  const DEFAULT_MAX_BODY: int := 67108864
  const FLOOR: int := 67108864

  // ---- The budget -----------------------------------------------------------------------

  function Effective(maxBody: int): int {
    if maxBody <= 0 then DEFAULT_MAX_BODY else maxBody
  }

  /** rewriteBodyReservation. */
  function RewriteReservation(maxBody: int): (r: int)
    requires maxBody <= MAX_INT64
    ensures 0 < r <= MAX_INT64
  {
    var m := Effective(maxBody);
    if m > MAX_INT64 - GROWTH then MAX_INT64 else m + GROWTH
  }

  /** requestBodyMemoryBudget: no intermediate value leaves the 64-bit range. */
  function Budget(maxBody: int): (b: int)
    requires maxBody <= MAX_INT64
    ensures 0 < b <= MAX_INT64
  {
    var m := Effective(maxBody);
    var rewrite := RewriteReservation(m);
    if rewrite == MAX_INT64 || rewrite > MAX_INT64 - GROWTH || m > (MAX_INT64 - rewrite - GROWTH) / 2 then MAX_INT64
    else
      var sum := 2 * m + rewrite + GROWTH;
      if sum < FLOOR then FLOOR else sum
  }

  /** The saturating value of three bodies and two growth allowances, at least 64 MiB. */
  lemma BudgetIs(maxBody: int)
    requires maxBody <= MAX_INT64
    ensures var need := 3 * Effective(maxBody) + 2 * GROWTH;
      Budget(maxBody) == if need > MAX_INT64 then MAX_INT64 else if need < FLOOR then FLOOR else need
  {
  }

  // ---- The objects --------------------------------------------------------------------------

  class Gateway {
    var bodyBytes: int

    constructor ()
      ensures bodyBytes == 0
    {
      bodyBytes := 0;
    }

    /** tryAcquireBodyBytes, at the step where the compare-and-swap succeeds or the limit is
        found to be reached. */
    method TryAcquire(reservation: int, limit: int) returns (ok: bool)
      requires 0 <= bodyBytes <= MAX_INT64 && reservation <= MAX_INT64 && 0 <= limit <= MAX_INT64
      modifies this
      ensures ok == (reservation >= 0 && (reservation > 0 ==> old(bodyBytes) + reservation <= limit))
      ensures bodyBytes == if ok then old(bodyBytes) + reservation else old(bodyBytes)
      ensures 0 <= bodyBytes <= MAX_INT64
    {
      if reservation < 0 { return false; }
      if reservation == 0 { return true; }
      if bodyBytes > limit - reservation { return false; }
      bodyBytes := bodyBytes + reservation;
      return true;
    }
  }

  class BodyByteLease {
    const gateway: Gateway
    const limit: int
    var reserved: int
    var released: bool

    constructor (gateway: Gateway, limit: int)
      ensures this.gateway == gateway && this.limit == limit && reserved == 0 && !released
    {
      this.gateway, this.limit, reserved, released := gateway, limit, 0, false;
    }

    /** The lease holds what it reserved, and the counter covers it. */
    predicate Valid()
      reads this, gateway
    {
      0 <= limit <= MAX_INT64 && 0 <= reserved <= gateway.bodyBytes <= MAX_INT64 && (released ==> reserved == 0)
    }

    /** The counter and this lease, as the steps below see them. */
    function Alone(): Pool
      requires Valid()
      reads this, gateway
    {
      Pool(gateway.bodyBytes, [Lease(limit, reserved, released)])
    }

    method Acquire(bytes: int) returns (ok: bool)
      requires Valid() && bytes <= MAX_INT64
      modifies this, gateway
      ensures Valid() && released == old(released)
      ensures ok == (bytes <= 0 || (!released && old(gateway.bodyBytes) + bytes <= limit))
      ensures reserved == old(reserved) + (if ok && bytes > 0 then bytes else 0)
      ensures gateway.bodyBytes - old(gateway.bodyBytes) == reserved - old(reserved)
      ensures Step(old(Alone()), Action.Acquire(0, bytes)) == Machines.Advance(Alone(), [])
    {
      if bytes <= 0 { return true; }
      if released { return false; }
      ok := gateway.TryAcquire(bytes, limit);
      if !ok { return; }
      reserved := reserved + bytes;
      OneLease(old(Alone().leases[0]), Alone().leases[0]);
    }

    method ShrinkTo(bytes: int)
      requires Valid() && 0 <= bytes
      modifies this, gateway
      ensures Valid() && released == old(released)
      ensures reserved == if !released && bytes < old(reserved) then bytes else old(reserved)
      ensures gateway.bodyBytes - old(gateway.bodyBytes) == reserved - old(reserved)
      ensures Step(old(Alone()), Action.Shrink(0, bytes)) == Machines.Advance(Alone(), [])
    {
      if released || bytes >= reserved { return; }
      gateway.bodyBytes := gateway.bodyBytes - (reserved - bytes);
      reserved := bytes;
      OneLease(old(Alone().leases[0]), Alone().leases[0]);
    }

    method Release()
      requires Valid()
      modifies this, gateway
      ensures Valid() && released && reserved == 0
      ensures gateway.bodyBytes - old(gateway.bodyBytes) == reserved - old(reserved)
      ensures Step(old(Alone()), Action.Release(0)) == Machines.Advance(Alone(), [])
    {
      OneLease(Alone().leases[0], Lease(limit, 0, true));
      if released { return; }
      released := true;
      if reserved > 0 {
        gateway.bodyBytes := gateway.bodyBytes - reserved;
        reserved := 0;
      }
    }
  }

  // ---- Many leases -----------------------------------------------------------------------------

  datatype Lease = Lease(limit: int, reserved: nat, released: bool)

  datatype Pool = Pool(bodyBytes: int, leases: seq<Lease>)

  datatype Action = Open(limit: int) | Acquire(l: nat, bytes: int) | Shrink(l: nat, size: nat) | Release(l: nat)

  type Stepped = Machines.Outcome<Pool, ()>

  const EMPTY := Pool(0, [])

  lemma OneLease(a: Lease, b: Lease)
    ensures [a][0 := b] == [b]
  {
  }

  /** The steps of the methods above, for any number of leases in any order.  Each method is
      proved to take its step on its own lease, and a step touches no other. */
  function Step(p: Pool, a: Action): Stepped {
    match a
    case Open(limit) =>
      if limit < 0 || limit > MAX_INT64 then Machines.Reject else Machines.Advance(p.(leases := p.leases + [Lease(limit, 0, false)]), [])
    case Acquire(l, bytes) =>
      if l >= |p.leases| || bytes > MAX_INT64 then Machines.Reject
      else
        var lease := p.leases[l];
        if bytes <= 0 || lease.released || p.bodyBytes + bytes > lease.limit then Machines.Advance(p, [])
        else Machines.Advance(Pool(p.bodyBytes + bytes, p.leases[l := lease.(reserved := lease.reserved + bytes)]), [])
    case Shrink(l, bytes) =>
      if l >= |p.leases| then Machines.Reject
      else
        var lease := p.leases[l];
        if lease.released || bytes >= lease.reserved then Machines.Advance(p, [])
        else Machines.Advance(Pool(p.bodyBytes - (lease.reserved - bytes), p.leases[l := lease.(reserved := bytes)]), [])
    case Release(l) =>
      if l >= |p.leases| then Machines.Reject
      else
        var lease := p.leases[l];
        Machines.Advance(Pool(p.bodyBytes - lease.reserved, p.leases[l := lease.(released := true, reserved := 0)]), [])
  }

  /** What a step on one lease does to a pool that holds others as well. */
  function Among(p: Pool, l: nat, alone: Stepped): Stepped {
    match alone
    case Reject => Machines.Reject
    case Advance(q, _) =>
      if l < |p.leases| && |q.leases| == 1 then Machines.Advance(Pool(q.bodyBytes, p.leases[l := q.leases[0]]), []) else Machines.Reject
  }

  lemma StepsAreLocal(p: Pool, l: nat, bytes: int, size: nat)
    requires l < |p.leases|
    ensures var own := Pool(p.bodyBytes, [p.leases[l]]);
      Step(p, Acquire(l, bytes)) == Among(p, l, Step(own, Acquire(0, bytes)))
      && Step(p, Shrink(l, size)) == Among(p, l, Step(own, Shrink(0, size)))
      && Step(p, Release(l)) == Among(p, l, Step(own, Release(0)))
  {
    assert p.leases[l := p.leases[l]] == p.leases;
  }

  function Reserved(leases: seq<Lease>): nat {
    if |leases| == 0 then 0 else Reserved(leases[..|leases| - 1]) + leases[|leases| - 1].reserved
  }

  predicate LimitsAtMost(leases: seq<Lease>, limit: int) {
    forall i :: 0 <= i < |leases| ==> leases[i].limit <= limit
  }

  lemma {:induction false} ReservedUpdate(leases: seq<Lease>, i: nat, l: Lease)
    requires i < |leases|
    ensures Reserved(leases[i := l]) == Reserved(leases) - leases[i].reserved + l.reserved
  {
    var front := leases[..|leases| - 1];
    if i == |front| {
      assert leases[i := l][..|front|] == front;
    } else {
      assert leases[i := l][..|front|] == front[i := l];
      ReservedUpdate(front, i, l);
    }
  }

  lemma StepCounts(p: Pool, a: Action, limit: int)
    requires p.bodyBytes == Reserved(p.leases) && p.bodyBytes <= limit && Step(p, a).Advance? && 0 <= limit
    requires LimitsAtMost(Step(p, a).next.leases, limit)
    ensures var q := Step(p, a).next;
      q.bodyBytes == Reserved(q.leases) && q.bodyBytes <= limit
  {
    var q := Step(p, a).next;
    match a {
      case Open(_) =>
        assert q.leases[..|p.leases|] == p.leases;
        assert forall i :: 0 <= i < |p.leases| ==> q.leases[i] == p.leases[i];
      case Acquire(l, _) =>
        if q != p { ReservedUpdate(p.leases, l, q.leases[l]); }
        assert forall i :: 0 <= i < |p.leases| ==> q.leases[i].limit == p.leases[i].limit;
      case Shrink(l, _) =>
        if q != p { ReservedUpdate(p.leases, l, q.leases[l]); }
        assert forall i :: 0 <= i < |p.leases| ==> q.leases[i].limit == p.leases[i].limit;
      case Release(l) =>
        ReservedUpdate(p.leases, l, q.leases[l]);
        assert forall i :: 0 <= i < |p.leases| ==> q.leases[i].limit == p.leases[i].limit;
    }
  }

  /** After any interleaving the counter is the sum of what is reserved, and it never passes
      the largest limit any request was given. */
  lemma {:induction false} CounterIsSum(actions: seq<Action>, limit: int)
    requires var r := Machines.Run(Step, EMPTY, actions); r.Advance? && LimitsAtMost(r.next.leases, limit)
    requires 0 <= limit
    ensures var p := Machines.Run(Step, EMPTY, actions).next; p.bodyBytes == Reserved(p.leases) && p.bodyBytes <= limit
  {
    if |actions| > 0 {
      hide Step;
      var front := actions[..|actions| - 1];
      var p, a := Machines.Run(Step, EMPTY, front).next, actions[|actions| - 1];
      LimitsKept(p, a, limit);
      CounterIsSum(front, limit);
      StepCounts(p, a, limit);
    }
  }

  lemma LimitsKept(p: Pool, a: Action, limit: int)
    requires Step(p, a).Advance? && LimitsAtMost(Step(p, a).next.leases, limit)
    ensures LimitsAtMost(p.leases, limit)
  {
    var q := Step(p, a).next;
    assert forall i :: 0 <= i < |p.leases| ==> q.leases[i].limit == p.leases[i].limit;
  }

  // ---- A request on its own -----------------------------------------------------------------------

  function Sum(pieces: seq<nat>): nat {
    if |pieces| == 0 then 0 else Sum(pieces[..|pieces| - 1]) + pieces[|pieces| - 1]
  }

  /** A legal request: its body fits, its normalised form and every rewritten form fit what
      was reserved for them. */
  predicate Legal(maxBody: int, known: Option<nat>, pieces: seq<nat>, profile: Option<nat>, attempts: seq<Option<nat>>)
    requires maxBody <= MAX_INT64
  {
    Sum(pieces) <= Effective(maxBody) && (known.Some? ==> known.value == Sum(pieces))
    && (profile.Some? ==> profile.value <= RewriteReservation(maxBody))
    && forall i :: 0 <= i < |attempts| && attempts[i].Some? ==> attempts[i].value <= RewriteReservation(maxBody)
  }

  lemma {:induction false} SumPrefix(pieces: seq<nat>, i: nat)
    requires i <= |pieces|
    ensures Sum(pieces[..i]) <= Sum(pieces)
    ensures i < |pieces| ==> Sum(pieces[..i + 1]) == Sum(pieces[..i]) + pieces[i]
    decreases |pieces| - i
  {
    if i < |pieces| {
      assert pieces[..i + 1][..i] == pieces[..i];
      SumPrefix(pieces, i + 1);
    } else {
      assert pieces[..i] == pieces;
    }
  }

  /** readBody: the reservation follows what has been read. */
  method ReadBody(lease: BodyByteLease, pieces: seq<nat>) returns (ok: bool)
    requires lease.Valid() && !lease.released && Sum(pieces) <= MAX_INT64
    modifies lease, lease.gateway
    ensures lease.Valid() && !lease.released
    ensures lease.gateway.bodyBytes - old(lease.gateway.bodyBytes) == lease.reserved - old(lease.reserved)
    ensures ok ==> lease.reserved == Sum(pieces)
    ensures Sum(pieces) <= old(lease.reserved) || old(lease.gateway.bodyBytes) - old(lease.reserved) + Sum(pieces) <= lease.limit ==> ok
  {
    var length := 0;
    var i := 0;
    while i < |pieces|
      invariant 0 <= i <= |pieces| && lease.Valid() && !lease.released && length == Sum(pieces[..i])
      invariant lease.gateway.bodyBytes - old(lease.gateway.bodyBytes) == lease.reserved - old(lease.reserved)
      invariant lease.reserved == if length > old(lease.reserved) then length else old(lease.reserved)
    {
      SumPrefix(pieces, i);
      SumPrefix(pieces, i + 1);
      var nextSize := length + pieces[i];
      if nextSize > lease.reserved {
        ok := lease.Acquire(nextSize - lease.reserved);
        if !ok { return; }
      }
      length := nextSize;
      i := i + 1;
    }
    assert pieces[..i] == pieces;
    lease.ShrinkTo(length);
    ok := true;
  }

  /** A changed form of the body: room for the largest is reserved, and then what it came to
      is kept besides `base`. */
  method ReserveForm(lease: BodyByteLease, maxBody: int, base: nat, form: Option<nat>) returns (ok: bool)
    requires lease.Valid() && !lease.released && maxBody <= MAX_INT64 && base <= lease.reserved
    requires form.Some? ==> form.value <= RewriteReservation(maxBody)
    modifies lease, lease.gateway
    ensures lease.Valid() && !lease.released
    ensures lease.gateway.bodyBytes - old(lease.gateway.bodyBytes) == lease.reserved - old(lease.reserved)
    ensures ok ==> lease.reserved == if form.Some? then base + form.value else old(lease.reserved)
    ensures old(lease.gateway.bodyBytes) + RewriteReservation(maxBody) <= lease.limit ==> ok
  {
    hide Step;
    if form.None? { return true; }
    ok := lease.Acquire(RewriteReservation(maxBody));
    if ok { lease.ShrinkTo(base + form.value); }
  }

  /** The form of every attempt is given back before the next attempt. */
  method ReserveAttempts(lease: BodyByteLease, maxBody: int, attempts: seq<Option<nat>>) returns (ok: bool)
    requires lease.Valid() && !lease.released && maxBody <= MAX_INT64
    requires forall i :: 0 <= i < |attempts| && attempts[i].Some? ==> attempts[i].value <= RewriteReservation(maxBody)
    modifies lease, lease.gateway
    ensures lease.Valid() && !lease.released
    ensures lease.gateway.bodyBytes - old(lease.gateway.bodyBytes) == lease.reserved - old(lease.reserved)
    ensures old(lease.gateway.bodyBytes) + RewriteReservation(maxBody) <= lease.limit ==> ok
  {
    hide Step, RewriteReservation;
    var base := lease.reserved;
    var i := 0;
    while i < |attempts|
      invariant 0 <= i <= |attempts| && lease.Valid() && !lease.released && lease.reserved == base
      invariant lease.gateway.bodyBytes == old(lease.gateway.bodyBytes)
    {
      ok := ReserveForm(lease, maxBody, base, attempts[i]);
      if !ok { return; }
      lease.ShrinkTo(base);
      i := i + 1;
    }
    ok := true;
  }

  /** Every reservation ServeGateway makes for one request: the body as it is read, its
      decoded copy, a normalised form, and a rewritten form for each attempt. */
  method ReserveForRequest(lease: BodyByteLease, maxBody: int, known: Option<nat>, pieces: seq<nat>, profile: Option<nat>,
                           attempts: seq<Option<nat>>) returns (refused: bool)
    requires lease.Valid() && !lease.released && lease.reserved == 0 && maxBody <= MAX_INT64 && lease.limit == Budget(maxBody)
    requires Legal(maxBody, known, pieces, profile, attempts) && Sum(pieces) <= MAX_INT64
    modifies lease, lease.gateway
    ensures lease.Valid() && lease.gateway.bodyBytes == old(lease.gateway.bodyBytes) + lease.reserved
    ensures old(lease.gateway.bodyBytes) == 0 && 3 * Effective(maxBody) + 2 * GROWTH <= MAX_INT64 ==> !refused
  {
    hide Step, Budget, Sum;
    BudgetSuffices(maxBody);
    refused := true;
    if known.Some? {
      var ok := lease.Acquire(known.value);
      if !ok { return; }
    } else if lease.gateway.bodyBytes >= lease.limit {
      return;
    }
    var ok := ReadBody(lease, pieces);
    if !ok { return; }
    ok := lease.Acquire(Sum(pieces));
    if !ok { return; }
    ok := ReserveForm(lease, maxBody, Sum(pieces), profile);
    if !ok { return; }
    ok := ReserveAttempts(lease, maxBody, attempts);
    refused := !ok;
  }

  /** What the worst legal request holds while it is rewritten a second time. */
  function WorstCase(maxBody: int): int
    requires maxBody <= MAX_INT64
  {
    Effective(maxBody) + RewriteReservation(maxBody) + RewriteReservation(maxBody)
  }

  /** The budget covers the worst case exactly when it does not saturate below it, which no
      configured limit of at most 256 MiB can make it do. */
  lemma BudgetSuffices(maxBody: int)
    requires maxBody <= MAX_INT64
    ensures WorstCase(maxBody) <= Budget(maxBody) <==> 3 * Effective(maxBody) + 2 * GROWTH <= MAX_INT64
    ensures maxBody <= 256 * 1048576 ==> WorstCase(maxBody) <= Budget(maxBody)
  {
    BudgetIs(maxBody);
  }
}
