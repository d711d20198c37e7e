/** The attempt loop of a request. */
module RequestLoop {
  // What the network does is an arbitrary function of the attempt number; what is proved is that
  // a submission which the provider may have accepted is never sent again.

  import opened GoText

  /** How one submission to an upstream ends: it was provably not written, it was written
      but the answer was lost, or it was answered. `attested` is the adapter's claim that
      nothing was submitted. */
  datatype Outcome = NotWritten | Lost | Answered(status: int, attested: bool)

  /** Why no account could be selected. */
  datatype Cause = NoEligible | KnownUnavailable | NoCapacity

  /** What happens at one attempt: selection fails, or an account is selected. A trusted
      account is served by the configured local adapter; `refreshed` says whether a rejected
      credential can be refreshed. */
  datatype Round =
    | Unselected(cause: Cause)
    | Selected(targeted: bool, trusted: bool, refreshed: bool, rewritten: bool, cancelled: bool, first: Outcome, second: Outcome)

  datatype Send = Send(attempt: nat, targeted: bool, trusted: bool, outcome: Outcome)

  datatype Reply =
    | Unavailable(cause: Cause)
    | Refused
    | Cancelled
    | Uncertain
    | Failed
    | Buffered(status: int)
    | Streamed(status: int)

  // ---- Classification ---------------------------------------------------------------------

  /** retryableStatus. */
  predicate RetryableStatus(code: int) {
    code in {401, 402, 403, 408, 409, 425, 429} || 500 <= code <= 599
  }

  /** retryableStatusForOperation: retry, and whether the submission is uncertain. */
  function ForOperation(code: int): (bool, bool) {
    if code in {401, 402, 403, 429} then (true, false)
    else if code in {408, 409, 425} || 500 <= code <= 599 then (false, true)
    else (false, false)
  }

  datatype Decision = Retry | GiveUp | Deliver

  function Decide(targeted: bool, trusted: bool, o: Outcome): Decision {
    match o
    case NotWritten => Retry
    case Lost => GiveUp
    case Answered(code, attested) =>
      var (retry, uncertain) := if trusted && attested && RetryableStatus(code) then (true, false) else ForOperation(code);
      if uncertain then GiveUp else if retry || (targeted && code == 404) then Retry else Deliver
  }

  /** Nothing can have been accepted: it was not written, or refused for want of credentials,
      payment, permission or quota, or the explicit target does not exist, or the trusted
      adapter attests that a retryable answer came before any submission. */
  predicate ProvablyUnaccepted(s: Send) {
    match s.outcome
    case NotWritten => true
    case Lost => false
    case Answered(code, attested) =>
      code in {401, 402, 403, 429} || (s.targeted && code == 404) || (s.trusted && attested && RetryableStatus(code))
  }

  /** The branches of the loop retry in exactly these cases. */
  lemma RetriesExactlyWhenUnaccepted(s: Send)
    ensures Decide(s.targeted, s.trusted, s.outcome) == Retry <==> ProvablyUnaccepted(s)
  {
  }

  // ---- The loop ------------------------------------------------------------------------------

  /** doUpstreamWithOAuthRecovery: one submission, and a second one after an explicit 401 whose
      credential the local adapter could refresh. */
  method DoUpstream(attempt: nat, r: Round, before: seq<Send>) returns (o: Outcome, sends: seq<Send>)
    requires r.Selected?
    ensures before <= sends && 1 <= |sends| - |before| <= 2 && sends[|sends| - 1] == Send(attempt, r.targeted, r.trusted, o)
    ensures forall k :: |before| <= k < |sends| ==> sends[k].attempt == attempt && sends[k].targeted == r.targeted && sends[k].trusted == r.trusted
    ensures |sends| - |before| == 2 ==> r.trusted && sends[|before|].outcome.Answered? && sends[|before|].outcome.status == 401
  {
    o := r.first;
    sends := before + [Send(attempt, r.targeted, r.trusted, o)];
    if !o.Answered? || o.status != 401 || !r.trusted { return; }
    if !r.refreshed { return; }
    o := r.second;
    sends := sends + [Send(attempt, r.targeted, r.trusted, o)];
  }

  /** Every submission but the last is provably unaccepted. */
  predicate NeverReplays(sends: seq<Send>) {
    forall i :: 0 <= i < |sends| - 1 ==> ProvablyUnaccepted(sends[i])
  }

  /** At most two submissions per selection, the second only after a trusted 401. */
  predicate AtMostTwice(sends: seq<Send>) {
    (forall i, j :: 0 <= i < j < |sends| ==> sends[i].attempt <= sends[j].attempt)
    && forall i, j :: 0 <= i < j < |sends| && sends[i].attempt == sends[j].attempt ==>
         j == i + 1 && sends[i].trusted && sends[i].outcome.Answered? && sends[i].outcome.status == 401
  }

  predicate AllUnaccepted(sends: seq<Send>) {
    forall i :: 0 <= i < |sends| ==> ProvablyUnaccepted(sends[i])
  }

  /** Some submission was answered with a refusal of this status. */
  predicate WasRefused(sends: seq<Send>, status: int) {
    exists i :: 0 <= i < |sends| && sends[i].outcome.Answered? && sends[i].outcome.status == status && ProvablyUnaccepted(sends[i])
  }

  lemma RefusedBefore(before: seq<Send>, sends: seq<Send>, status: int)
    requires before <= sends && WasRefused(before, status)
    ensures WasRefused(sends, status)
  {
    var i :| 0 <= i < |before| && before[i].outcome.Answered? && before[i].outcome.status == status && ProvablyUnaccepted(before[i]);
    assert sends[i] == before[i];
  }

  lemma RefusedNow(sends: seq<Send>)
    requires |sends| > 0 && sends[|sends| - 1].outcome.Answered? && ProvablyUnaccepted(sends[|sends| - 1])
    ensures WasRefused(sends, sends[|sends| - 1].outcome.status)
  {
  }

  predicate BelowAttempt(sends: seq<Send>, n: nat) {
    forall i :: 0 <= i < |sends| ==> sends[i].attempt < n
  }

  lemma AddSends(before: seq<Send>, sends: seq<Send>, attempt: nat)
    requires before <= sends && 1 <= |sends| - |before| <= 2
    requires forall k :: |before| <= k < |sends| ==> sends[k].attempt == attempt
    requires |sends| - |before| == 2 ==> sends[|before|].trusted && sends[|before|].outcome.Answered? && sends[|before|].outcome.status == 401
    requires AtMostTwice(before) && BelowAttempt(before, attempt) && AllUnaccepted(before)
    ensures AtMostTwice(sends) && BelowAttempt(sends, attempt + 1) && NeverReplays(sends)
  {
    assert forall i :: 0 <= i < |before| ==> sends[i] == before[i];
  }

  /** ServeGateway from the first selection on. `limit` is the configured number of attempts,
      `env` what happens at each of them. */
  method ServeAttempts(limit: int, env: nat -> Round) returns (reply: Reply, sends: seq<Send>)
    ensures NeverReplays(sends) && AtMostTwice(sends) && BelowAttempt(sends, if limit <= 0 then 1 else limit)
    // Whatever may have been accepted ends the request: it is delivered, or reported as such.
    ensures |sends| > 0 && !ProvablyUnaccepted(sends[|sends| - 1]) && reply != Cancelled ==>
              reply == (if Decide(sends[|sends| - 1].targeted, sends[|sends| - 1].trusted, sends[|sends| - 1].outcome) == GiveUp then Uncertain
                        else Streamed(sends[|sends| - 1].outcome.status))
    ensures reply.Streamed? || reply == Uncertain ==> |sends| > 0 && !ProvablyUnaccepted(sends[|sends| - 1])
    // A buffered error is the last refusal that was answered.
    ensures reply.Buffered? ==> WasRefused(sends, reply.status)
  {
    hide NeverReplays, AtMostTwice, BelowAttempt, AllUnaccepted, WasRefused, ProvablyUnaccepted;
    NothingSent();
    var maxAttempts := if limit <= 0 then 1 else limit;
    sends := [];
    var last: Option<int> := None;
    var attempt := 0;
    while attempt < maxAttempts
      invariant 0 <= attempt < maxAttempts
      invariant AtMostTwice(sends) && BelowAttempt(sends, attempt) && AllUnaccepted(sends)
      invariant last.Some? ==> WasRefused(sends, last.value)
      decreases maxAttempts - attempt
    {
      var round := env(attempt);
      NothingSince(sends, attempt, maxAttempts);
      if round.Unselected? {
        return if last.Some? then Buffered(last.value) else Unavailable(round.cause), sends;
      }
      if !round.rewritten { return Refused, sends; }
      ghost var before := sends;
      var o;
      o, sends := DoUpstream(attempt, round, sends);
      AddSends(before, sends, attempt);
      NothingSince(sends, attempt + 1, maxAttempts);
      RetriesExactlyWhenUnaccepted(sends[|sends| - 1]);
      AllBut(sends);
      if last.Some? { RefusedBefore(before, sends, last.value); }
      if !o.Answered? {
        if round.cancelled { return Cancelled, sends; }
        if o == NotWritten && attempt + 1 < maxAttempts {
          attempt := attempt + 1;
          continue;
        }
        if o == Lost { return Uncertain, sends; }
        return if last.Some? then Buffered(last.value) else Failed, sends;
      }
      var (retry, uncertain) := ForOperation(o.status);
      if round.trusted && o.attested && RetryableStatus(o.status) { retry, uncertain := true, false; }
      if uncertain { return Uncertain, sends; }
      if retry || (round.targeted && o.status == 404) {
        last := Some(o.status);
        RefusedNow(sends);
        if attempt + 1 < maxAttempts {
          attempt := attempt + 1;
          continue;
        }
        return Buffered(o.status), sends;
      }
      return Streamed(o.status), sends;
    }
    assert false;
  }

  /** When the last submission is unaccepted, all of them are. */
  lemma AllBut(sends: seq<Send>)
    requires |sends| > 0 && NeverReplays(sends)
    ensures ProvablyUnaccepted(sends[|sends| - 1]) ==> AllUnaccepted(sends)
  {
  }

  lemma NothingSent()
    ensures AtMostTwice([]) && BelowAttempt([], 0) && AllUnaccepted([])
  {
  }

  lemma NothingSince(sends: seq<Send>, n: nat, m: nat)
    requires n <= m && BelowAttempt(sends, n)
    ensures BelowAttempt(sends, m) && (AllUnaccepted(sends) ==> NeverReplays(sends))
    ensures AllUnaccepted(sends) && |sends| > 0 ==> ProvablyUnaccepted(sends[|sends| - 1])
  {
  }
}
