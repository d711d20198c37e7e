/** The circuit breaker of one (operation, model) scope. */
module Breaker {
  // Attempts are numbered when they begin and may report in any order; the numbers keep an
  // old result from overruling a newer one.  The verdict depends only on what was reported.

  import opened GoText

  /** What an attempt reports at its end. Neutral results say nothing about health. */
  datatype Report = Success(sequence: nat) | Neutral(sequence: nat) | Failure(sequence: nat, message: string, forced: bool, until: int)

  datatype State = State(failures: nat, circuitUntil: int, lastError: string, latestFailure: nat, latestNonFailure: nat)

  const CLOSED := State(0, 0, "", 0, 0)

  function Max(a: nat, b: nat): nat {
    if a < b then b else a
  }

  function Applied(s: State, r: Report, threshold: int): State {
    match r
    case Neutral(_) => s
    case Success(n) =>
      if n <= s.latestFailure then s
      else State(0, 0, "", s.latestFailure, Max(n, s.latestNonFailure))
    case Failure(n, message, forced, until) =>
      if n <= s.latestNonFailure then s
      else
        var failures := s.failures + 1;
        State(failures, if failures >= threshold || forced then until else s.circuitUntil, message,
              Max(n, s.latestFailure), s.latestNonFailure)
  }

  // ---- The object ---------------------------------------------------------------------------

  class BreakerRuntime {
    var failures: nat
    var circuitUntil: int
    var lastError: string
    var attemptSeq: nat
    var latestFailureSeq: nat
    var latestNonFailureSeq: nat

    constructor ()
      ensures Verdict() == CLOSED && attemptSeq == 0
    {
      failures, circuitUntil, lastError, attemptSeq, latestFailureSeq, latestNonFailureSeq := 0, 0, "", 0, 0, 0;
    }

    function Verdict(): State
      reads this
    {
      State(failures, circuitUntil, lastError, latestFailureSeq, latestNonFailureSeq)
    }

    /** beginAttempt: every attempt gets a number of its own. */
    method BeginAttempt() returns (sequence: nat)
      modifies `attemptSeq
      ensures sequence == attemptSeq == old(attemptSeq) + 1
    {
      attemptSeq := attemptSeq + 1;
      sequence := attemptSeq;
    }

    method ReportSuccess(sequence: nat)
      modifies this
      ensures Verdict() == Applied(old(Verdict()), Success(sequence), 0) && attemptSeq == old(attemptSeq)
    {
      if sequence <= latestFailureSeq { return; }
      if sequence > latestNonFailureSeq { latestNonFailureSeq := sequence; }
      failures := 0;
      circuitUntil := 0;
      lastError := "";
    }

    method ReportFailure(sequence: nat, message: string, threshold: int, until: int, forceCircuit: bool)
      modifies this
      ensures Verdict() == Applied(old(Verdict()), Failure(sequence, message, forceCircuit, until), threshold)
      ensures attemptSeq == old(attemptSeq)
    {
      if sequence <= latestNonFailureSeq { return; }
      if sequence > latestFailureSeq { latestFailureSeq := sequence; }
      failures := failures + 1;
      lastError := message;
      if failures >= threshold || forceCircuit { circuitUntil := until; }
    }
  }

  // ---- Histories --------------------------------------------------------------------------------

  function After(rs: seq<Report>, threshold: int): State {
    if |rs| == 0 then CLOSED else Applied(After(rs[..|rs| - 1], threshold), rs[|rs| - 1], threshold)
  }

  /** Attempts are numbered from 1, and each reports once. */
  predicate OncePerAttempt(rs: seq<Report>) {
    (forall i :: 0 <= i < |rs| ==> rs[i].sequence > 0)
    && forall i, j :: 0 <= i < j < |rs| ==> rs[i].sequence != rs[j].sequence
  }

  /** Every failure was followed by a success of a later attempt. */
  predicate Healthy(rs: seq<Report>) {
    forall i :: 0 <= i < |rs| && rs[i].Failure? ==> exists j :: 0 <= j < |rs| && rs[j].Success? && rs[j].sequence > rs[i].sequence
  }

  /** How many attempts newer than n have failed. */
  function FailuresSince(rs: seq<Report>, n: nat): nat {
    if |rs| == 0 then 0
    else
      var r := rs[|rs| - 1];
      FailuresSince(rs[..|rs| - 1], n) + (if r.Failure? && r.sequence > n then 1 else 0)
  }

  /** A success that no newer failure had overruled when it came. */
  predicate AppliedSuccess(rs: seq<Report>, i: nat, threshold: int) {
    i < |rs| && rs[i].Success? && rs[i].sequence > After(rs[..i], threshold).latestFailure
  }

  /** The newest applied success has number n, or there is none and n is 0. */
  ghost predicate NewestApplied(rs: seq<Report>, n: nat, threshold: int) {
    (forall i: nat :: AppliedSuccess(rs, i, threshold) ==> rs[i].sequence <= n)
    && (n == 0 || exists i: nat :: AppliedSuccess(rs, i, threshold) && rs[i].sequence == n)
  }

  predicate AllAtMost(rs: seq<Report>, n: nat) {
    forall i :: 0 <= i < |rs| && !rs[i].Neutral? ==> rs[i].sequence <= n
  }

  predicate ReportedFailure(rs: seq<Report>, n: nat) {
    exists i :: 0 <= i < |rs| && rs[i].Failure? && rs[i].sequence == n
  }

  /** What the state remembers of a history. */
  ghost predicate Remembers(s: State, rs: seq<Report>, threshold: int) {
    AllAtMost(rs, Max(s.latestFailure, s.latestNonFailure))
    && NewestApplied(rs, s.latestNonFailure, threshold)
    && (s.latestFailure > 0 ==> ReportedFailure(rs, s.latestFailure))
    && s.failures == FailuresSince(rs, s.latestNonFailure)
    && (s.failures > 0 <==> s.latestFailure > s.latestNonFailure)
    && (s.failures == 0 ==> s.circuitUntil == 0)
  }

  lemma {:induction false} FailuresSinceNone(rs: seq<Report>, n: nat)
    requires forall i :: 0 <= i < |rs| && rs[i].Failure? ==> rs[i].sequence <= n
    ensures FailuresSince(rs, n) == 0
  {
    if |rs| > 0 { FailuresSinceNone(rs[..|rs| - 1], n); }
  }

  lemma Grows(rs: seq<Report>, n: nat)
    requires |rs| > 0
    ensures var front := rs[..|rs| - 1];
      (ReportedFailure(front, n) ==> ReportedFailure(rs, n))
      && (AllAtMost(front, n) && (rs[|rs| - 1].Neutral? || rs[|rs| - 1].sequence <= n) ==> AllAtMost(rs, n))
  {
    var front := rs[..|rs| - 1];
    assert forall i :: 0 <= i < |front| ==> front[i] == rs[i];
    if ReportedFailure(front, n) {
      var i :| 0 <= i < |front| && front[i].Failure? && front[i].sequence == n;
      assert rs[i].Failure? && rs[i].sequence == n;
    }
  }

  /** Whether a success was applied depends on what came before it. */
  lemma AppliedBefore(rs: seq<Report>, i: nat, threshold: int)
    requires |rs| > 0 && i < |rs| - 1
    ensures AppliedSuccess(rs, i, threshold) <==> AppliedSuccess(rs[..|rs| - 1], i, threshold)
  {
    assert rs[..|rs| - 1][..i] == rs[..i];
  }

  /** The newest applied success after one more report. */
  lemma AppliedGrows(rs: seq<Report>, n: nat, threshold: int)
    requires |rs| > 0 && NewestApplied(rs[..|rs| - 1], n, threshold)
    ensures var last := |rs| - 1;
      NewestApplied(rs, if AppliedSuccess(rs, last, threshold) then Max(rs[last].sequence, n) else n, threshold)
  {
    hide After;
    var last := |rs| - 1;
    var m := if AppliedSuccess(rs, last, threshold) then Max(rs[last].sequence, n) else n;
    forall i: nat | AppliedSuccess(rs, i, threshold) ensures rs[i].sequence <= m {
      if i < last { AppliedBefore(rs, i, threshold); }
    }
    if m == n && n > 0 {
      var i: nat :| AppliedSuccess(rs[..last], i, threshold) && rs[..last][i].sequence == n;
      AppliedBefore(rs, i, threshold);
    }
  }

  lemma RemembersSuccess(s: State, rs: seq<Report>, threshold: int)
    requires |rs| > 0 && OncePerAttempt(rs) && rs[|rs| - 1].Success? && Remembers(s, rs[..|rs| - 1], threshold)
    requires s == After(rs[..|rs| - 1], threshold)
    ensures Remembers(Applied(s, rs[|rs| - 1], threshold), rs, threshold)
  {
    hide After;
    var front, n := rs[..|rs| - 1], rs[|rs| - 1].sequence;
    var t := Applied(s, rs[|rs| - 1], threshold);
    AppliedGrows(rs, s.latestNonFailure, threshold);
    Grows(rs, s.latestFailure);
    if n > s.latestFailure {
      var m := t.latestNonFailure;
      forall i | 0 <= i < |rs| && !rs[i].Neutral? ensures rs[i].sequence <= m {
        if i < |front| { assert front[i] == rs[i]; }
      }
      FailuresSinceNone(rs, m);
    } else {
      Grows(rs, Max(s.latestFailure, s.latestNonFailure));
    }
  }

  lemma RemembersFailure(s: State, rs: seq<Report>, threshold: int)
    requires |rs| > 0 && OncePerAttempt(rs) && rs[|rs| - 1].Failure? && Remembers(s, rs[..|rs| - 1], threshold)
    requires s == After(rs[..|rs| - 1], threshold)
    ensures Remembers(Applied(s, rs[|rs| - 1], threshold), rs, threshold)
  {
    hide After;
    var front, r := rs[..|rs| - 1], rs[|rs| - 1];
    AppliedGrows(rs, s.latestNonFailure, threshold);
    Grows(rs, s.latestFailure);
    Grows(rs, Max(Max(r.sequence, s.latestFailure), s.latestNonFailure));
    assert ReportedFailure(rs, r.sequence) by { assert rs[|rs| - 1].sequence == r.sequence; }
  }

  /** The two fences are the newest failure and the newest applied success, and the failures
      counted are those newer than the latter. */
  lemma {:induction false} HistoryRemembered(rs: seq<Report>, threshold: int)
    requires OncePerAttempt(rs)
    ensures Remembers(After(rs, threshold), rs, threshold)
  {
    if |rs| > 0 {
      var front, s := rs[..|rs| - 1], After(rs[..|rs| - 1], threshold);
      assert OncePerAttempt(front);
      HistoryRemembered(front, threshold);
      match rs[|rs| - 1] {
        case Success(_) => RemembersSuccess(s, rs, threshold);
        case Failure(_, _, _, _) => RemembersFailure(s, rs, threshold);
        case Neutral(_) =>
          AppliedGrows(rs, s.latestNonFailure, threshold);
          Grows(rs, s.latestFailure);
          Grows(rs, Max(s.latestFailure, s.latestNonFailure));
      }
    }
  }

  // ---- Main results --------------------------------------------------------------------------------

  /** The failure count is zero exactly when every failure was answered by a newer success:
      the order of the reports does not matter. */
  lemma VerdictIsOfTheHistory(rs: seq<Report>, threshold: int)
    requires OncePerAttempt(rs)
    ensures After(rs, threshold).failures == 0 <==> Healthy(rs)
  {
    HistoryRemembered(rs, threshold);
    var s := After(rs, threshold);
    hide After;
    if s.failures == 0 {
      forall i | 0 <= i < |rs| && rs[i].Failure? ensures exists j :: 0 <= j < |rs| && rs[j].Success? && rs[j].sequence > rs[i].sequence {
        var j: nat :| AppliedSuccess(rs, j, threshold) && rs[j].sequence == s.latestNonFailure;
        assert rs[i].sequence <= s.latestNonFailure && i != j;
      }
    } else {
      var i :| 0 <= i < |rs| && rs[i].Failure? && rs[i].sequence == s.latestFailure;
      assert forall j :: 0 <= j < |rs| && rs[j].Success? ==> rs[j].sequence <= rs[i].sequence;
    }
  }

  /** The newest reported attempt decides: a failure or an open circuit means it failed. */
  lemma NewestDecides(rs: seq<Report>, threshold: int, i: nat)
    requires OncePerAttempt(rs) && i < |rs| && !rs[i].Neutral? && AllAtMost(rs, rs[i].sequence)
    ensures After(rs, threshold).failures == 0 <==> rs[i].Success?
    ensures After(rs, threshold).circuitUntil != 0 ==> rs[i].Failure?
  {
    VerdictIsOfTheHistory(rs, threshold);
    HistoryRemembered(rs, threshold);
    hide After;
    if rs[i].Success? {
      forall k | 0 <= k < |rs| && rs[k].Failure? ensures exists j :: 0 <= j < |rs| && rs[j].Success? && rs[j].sequence > rs[k].sequence {
        assert rs[i].sequence > rs[k].sequence by { assert i != k; }
      }
    }
  }

  lemma SameReportsSameVerdict(rs: seq<Report>, ts: seq<Report>, threshold: int)
    requires OncePerAttempt(rs) && OncePerAttempt(ts) && multiset(rs) == multiset(ts)
    ensures After(rs, threshold).failures == 0 <==> After(ts, threshold).failures == 0
  {
    VerdictIsOfTheHistory(rs, threshold);
    VerdictIsOfTheHistory(ts, threshold);
    hide After, Healthy;
    if Healthy(rs) { HealthyByMembers(rs, ts); }
    if Healthy(ts) { HealthyByMembers(ts, rs); }
  }

  lemma HealthyByMembers(rs: seq<Report>, ts: seq<Report>)
    requires multiset(rs) == multiset(ts) && Healthy(rs)
    ensures Healthy(ts)
  {
    forall i | 0 <= i < |ts| && ts[i].Failure? ensures exists j :: 0 <= j < |ts| && ts[j].Success? && ts[j].sequence > ts[i].sequence {
      assert ts[i] in multiset(rs);
      var k :| 0 <= k < |rs| && rs[k] == ts[i];
      var j :| 0 <= j < |rs| && rs[j].Success? && rs[j].sequence > rs[k].sequence;
      assert rs[j] in multiset(ts);
    }
  }

  /** When a report that does not force it opens the circuit, at least `threshold` attempts
      newer than the newest applied success have failed. */
  lemma TripsOnThreshold(rs: seq<Report>, threshold: int)
    requires |rs| > 0 && OncePerAttempt(rs) && rs[|rs| - 1].Failure? && !rs[|rs| - 1].forced
    requires After(rs, threshold).circuitUntil != After(rs[..|rs| - 1], threshold).circuitUntil
    ensures FailuresSince(rs, After(rs, threshold).latestNonFailure) >= threshold
    ensures NewestApplied(rs, After(rs, threshold).latestNonFailure, threshold)
  {
    HistoryRemembered(rs, threshold);
  }
}
