/**
  State machines that consume an input symbol by symbol, may stop for good, and report
  events.
 */
module Machines {
  // The scanner, the completion contract and the stream checkers are all of this kind; what
  // is said here once is that consuming an input in pieces makes no difference.


  datatype Outcome<S, E> = Reject | Advance(next: S, events: seq<E>)

  function Prefixed<S, E>(events: seq<E>, o: Outcome<S, E>): Outcome<S, E> {
    match o
    case Reject => Reject
    case Advance(s, more) => Advance(s, events + more)
  }

  lemma PrefixedTwice<S, E>(a: seq<E>, b: seq<E>, o: Outcome<S, E>)
    ensures Prefixed(a, Prefixed(b, o)) == Prefixed(a + b, o)
  {
    match o {
      case Reject =>
      case Advance(s, more) => assert a + (b + more) == a + b + more;
    }
  }

  lemma PrefixedNone<S, E>(o: Outcome<S, E>)
    ensures Prefixed([], o) == o
  {
    match o {
      case Reject =>
      case Advance(s, more) => assert [] + more == more;
    }
  }

  /** Continue an outcome with one more symbol. */
  function Then<S, I, E>(step: (S, I) -> Outcome<S, E>, o: Outcome<S, E>, i: I): Outcome<S, E> {
    match o
    case Reject => Reject
    case Advance(s, events) => Prefixed(events, step(s, i))
  }

  function Run<S, I, E>(step: (S, I) -> Outcome<S, E>, s: S, input: seq<I>): Outcome<S, E> {
    if |input| == 0 then Advance(s, [])
    else Then(step, Run(step, s, input[..|input| - 1]), input[|input| - 1])
  }

  /** Continue an outcome with a further input. */
  function After<S, I, E>(step: (S, I) -> Outcome<S, E>, o: Outcome<S, E>, input: seq<I>): Outcome<S, E> {
    match o
    case Reject => Reject
    case Advance(s, events) => Prefixed(events, Run(step, s, input))
  }

  lemma {:induction false} RunAppend<S, I, E>(step: (S, I) -> Outcome<S, E>, s: S, a: seq<I>, b: seq<I>)
    ensures Run(step, s, a + b) == After(step, Run(step, s, a), b)
    decreases |b|
  {
    if |b| == 0 {
      assert a + b == a;
      match Run(step, s, a) {
        case Reject =>
        case Advance(s1, e1) => assert e1 + [] == e1;
      }
    } else {
      var front := b[..|b| - 1];
      assert (a + b)[..|a + b| - 1] == a + front;
      RunAppend(step, s, a, front);
      match Run(step, s, a) {
        case Reject =>
        case Advance(s1, e1) =>
          match Run(step, s1, front) {
            case Reject =>
            case Advance(s2, e2) =>
              match step(s2, b[|b| - 1]) {
                case Reject =>
                case Advance(s3, e3) => assert e1 + (e2 + e3) == e1 + e2 + e3;
              }
          }
      }
    }
  }

  lemma RunOne<S, I, E>(step: (S, I) -> Outcome<S, E>, s: S, i: I)
    ensures Run(step, s, [i]) == step(s, i)
  {
    assert [i][..0] == [];
    match step(s, i) {
      case Reject =>
      case Advance(s1, e) => assert [] + e == e;
    }
  }

  /** The first symbol, then the rest. */
  lemma RunCons<S, I, E>(step: (S, I) -> Outcome<S, E>, s: S, input: seq<I>)
    requires |input| > 0
    ensures Run(step, s, input) == After(step, step(s, input[0]), input[1..])
  {
    assert input == [input[0]] + input[1..];
    RunAppend(step, s, [input[0]], input[1..]);
    RunOne(step, s, input[0]);
  }

  /** One more symbol of an input. */
  lemma RunStep<S, I, E>(step: (S, I) -> Outcome<S, E>, s: S, input: seq<I>, i: nat)
    requires i < |input|
    ensures Run(step, s, input[..i + 1]) == Then(step, Run(step, s, input[..i]), input[i])
  {
    assert input[..i + 1][..i] == input[..i];
  }

  /** What has been refused stays refused. */
  lemma RunRejects<S, I, E>(step: (S, I) -> Outcome<S, E>, s: S, input: seq<I>, i: nat)
    requires i <= |input| && Run(step, s, input[..i]).Reject?
    ensures Run(step, s, input).Reject?
  {
    assert input == input[..i] + input[i..];
    RunAppend(step, s, input[..i], input[i..]);
  }

  /** Once an input has been consumed, what follows starts from the state reached. */
  lemma RunParts<S, I, E>(step: (S, I) -> Outcome<S, E>, s: S, a: seq<I>, b: seq<I>, s1: S, e1: seq<E>)
    requires Run(step, s, a) == Advance(s1, e1)
    ensures Run(step, s, a + b) == Prefixed(e1, Run(step, s1, b))
  {
    RunAppend(step, s, a, b);
  }

  function Concat<I>(parts: seq<seq<I>>): seq<I> {
    if |parts| == 0 then [] else Concat(parts[..|parts| - 1]) + parts[|parts| - 1]
  }

  function RunAll<S, I, E>(step: (S, I) -> Outcome<S, E>, s: S, parts: seq<seq<I>>): Outcome<S, E> {
    if |parts| == 0 then Advance(s, [])
    else After(step, RunAll(step, s, parts[..|parts| - 1]), parts[|parts| - 1])
  }

  /** However an input is cut into pieces, the outcome is that of the whole input. */
  lemma {:induction false} RunAllIsRun<S, I, E>(step: (S, I) -> Outcome<S, E>, s: S, parts: seq<seq<I>>)
    ensures RunAll(step, s, parts) == Run(step, s, Concat(parts))
  {
    if |parts| > 0 {
      var front := parts[..|parts| - 1];
      RunAllIsRun(step, s, front);
      RunAppend(step, s, Concat(front), parts[|parts| - 1]);
    }
  }

  // ---- One machine behind another ------------------------------------------------------

  /** What the first machine reports for one symbol is consumed by the second at once. */
  function Piped<A, B, I, E, F>(first: (A, I) -> Outcome<A, E>, second: (B, E) -> Outcome<B, F>, s: (A, B), i: I): Outcome<(A, B), F> {
    Fed(second, s.1, first(s.0, i))
  }

  function Fed<A, B, E, F>(second: (B, E) -> Outcome<B, F>, b: B, o: Outcome<A, E>): Outcome<(A, B), F> {
    match o
    case Reject => Reject
    case Advance(a, es) =>
      match Run(second, b, es)
      case Reject => Reject
      case Advance(b1, fs) => Advance((a, b1), fs)
  }

  function Pipe<A, B, I, E, F>(first: (A, I) -> Outcome<A, E>, second: (B, E) -> Outcome<B, F>): ((A, B), I) -> Outcome<(A, B), F> {
    (s: (A, B), i: I) => Piped(first, second, s, i)
  }

  /** Consuming reports as they come is consuming them all at the end. */
  lemma {:induction false} PipeIsFed<A, B, I, E, F>(first: (A, I) -> Outcome<A, E>, second: (B, E) -> Outcome<B, F>, s: (A, B), input: seq<I>)
    ensures Run(Pipe(first, second), s, input) == Fed(second, s.1, Run(first, s.0, input))
    decreases |input|
  {
    if |input| > 0 {
      var front, i := input[..|input| - 1], input[|input| - 1];
      PipeIsFed(first, second, s, front);
      match Run(first, s.0, front) {
        case Reject =>
        case Advance(a1, e1) =>
          match first(a1, i) {
            case Reject =>
            case Advance(a2, e2) => RunAppend(second, s.1, e1, e2);
          }
      }
    }
  }

  // ---- Inputs that fit what came before ---------------------------------------------------

  ghost predicate AllFit<A>(fits: (seq<A>, A) -> bool, xs: seq<A>) {
    forall k :: 0 <= k < |xs| ==> fits(xs[..k], xs[k])
  }

  lemma AllFitMore<A>(fits: (seq<A>, A) -> bool, xs: seq<A>)
    requires |xs| > 0
    ensures AllFit(fits, xs) <==> AllFit(fits, xs[..|xs| - 1]) && fits(xs[..|xs| - 1], xs[|xs| - 1])
  {
    var front := xs[..|xs| - 1];
    assert forall k :: 0 <= k < |front| ==> front[..k] == xs[..k] && front[k] == xs[k];
  }
}
