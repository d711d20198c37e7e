/** Delivery of an answer to the client. */
module Delivery {
  // A small buffered answer is held back until the checker has accepted all of it; a longer
  // one, or a stream, is passed on as it arrives, but never a piece that the checker has
  // objected to.  The reads of the upstream body are a list of pieces of any size with an
  // ending, and what is written to the client arrives there.

  import opened GoText
  import opened CompletionContract
  import opened StreamVerdict
  import opened JsonCompletion
  import opened ResponseCompletion
  import EventStream
  import JsonScanner
  import StreamEvents
  import Machines

  const PREVIEW: nat := 65536

  /** How the upstream body ends: properly, with a transport error, or in silence. */
  datatype Ending = Eof | Fault | Idle

  datatype Result = Delivered | Incomplete | UpstreamFailed

  /** Nothing has been objected to so far. */
  ghost predicate Unobjected(c: ResponseCompletion, text: bytes) {
    if c.stream then Machines.Run(Bytes(c.operation, c.requirements, c.decode), NEW_STATE, text).Advance?
    else CheckText(Some(c.operation), c.requirements, NEW, text).Advance?
  }

  /** The checker has read `text` and nothing else. */
  ghost predicate HasRead(c: ResponseCompletion, text: bytes)
    reads c, c.json
  {
    if c.stream then c.Reaches(!c.err, Machines.Run(Bytes(c.operation, c.requirements, c.decode), NEW_STATE, text))
    else c.json.Follows(!c.err, CheckText(Some(c.operation), c.requirements, NEW, text))
  }

  ghost predicate Ready(c: ResponseCompletion)
    reads c, c.json
  {
    (!c.err ==> c.Valid()) && c.json.operation == Some(c.operation) && c.json.requirements == c.requirements
  }

  method FeedPiece(c: ResponseCompletion, ghost text: bytes, piece: bytes)
    requires Ready(c) && !c.err && HasRead(c, text)
    modifies c, c.json
    ensures Ready(c) && HasRead(c, text + piece)
  {
    hide Bytes, CheckText;
    ghost var s0, j0 := c.State(), c.json.State();
    c.Feed(piece);
    if c.stream {
      Machines.RunAppend(Bytes(c.operation, c.requirements, c.decode), NEW_STATE, text, piece);
    } else {
      CheckAppend(Some(c.operation), c.requirements, text, piece);
    }
  }

  lemma CheckAppend(op: Option<Operation>, req: Requirements, a: bytes, b: bytes)
    requires CheckText(op, req, NEW, a).Advance?
    ensures var whole, rest := CheckText(op, req, NEW, a + b), CheckText(op, req, CheckText(op, req, NEW, a).next, b);
      whole.Advance? == rest.Advance? && (rest.Advance? ==> whole.next == rest.next)
  {
    Machines.RunAppend(Checker(op, req), NEW, a, b);
  }

  /** The final verdict on everything read. */
  method Judge(c: ResponseCompletion, ghost text: bytes) returns (ok: bool)
    requires Ready(c) && !c.err && HasRead(c, text)
    modifies c.json
    ensures c.stream ==> (ok <==> AcceptsStream(c.operation, c.requirements, c.decode, text))
    ensures !c.stream ==> (ok <==> AcceptsBody(c.operation, c.requirements, c.countTokens, text))
  {
    hide Bytes, CheckText, EndsWell, JsonScanner.FinishedAtEnd, Satisfied, AcceptsBody, Sound;
    BodyCheck(c.operation, c.requirements, c.countTokens, text);
    ok := c.Finish();
  }

  lemma ConcatFront(chunks: seq<bytes>, i: nat)
    requires i < |chunks|
    ensures Machines.Concat(chunks[..i + 1]) == Machines.Concat(chunks[..i]) + chunks[i]
  {
    assert chunks[..i + 1][..i] == chunks[..i];
  }

  lemma {:induction false} ConcatPrefix(chunks: seq<bytes>, i: nat)
    requires i <= |chunks|
    ensures Machines.Concat(chunks[..i]) <= Machines.Concat(chunks)
    decreases |chunks| - i
  {
    if i == |chunks| {
      assert chunks[..i] == chunks;
    } else {
      ConcatFront(chunks, i);
      ConcatPrefix(chunks, i + 1);
    }
  }

  lemma RejectedPrefix(c: ResponseCompletion, chunks: seq<bytes>, i: nat)
    requires i <= |chunks| && !Unobjected(c, Machines.Concat(chunks[..i]))
    ensures !Unobjected(c, Machines.Concat(chunks))
  {
    hide Bytes, Checker;
    var a, whole := Machines.Concat(chunks[..i]), Machines.Concat(chunks);
    ConcatPrefix(chunks, i);
    assert whole[..|a|] == a;
    if c.stream {
      Machines.RunRejects(Bytes(c.operation, c.requirements, c.decode), NEW_STATE, whole, |a|);
    } else {
      Machines.RunRejects(Checker(Some(c.operation), c.requirements), NEW, whole, |a|);
    }
  }

  /** Accepted texts were never objected to. */
  lemma AcceptedUnobjected(c: ResponseCompletion, text: bytes)
    requires !c.stream && AcceptsBody(c.operation, c.requirements, c.countTokens, text)
    ensures Unobjected(c, text)
  {
    hide AcceptsBody, CheckText, Satisfied;
    BodyCheck(c.operation, c.requirements, c.countTokens, text);
  }

  // ---- Where a stream ends ---------------------------------------------------------------

  /** After this much of a stream the checker has seen its last event. */
  ghost predicate Ended(c: ResponseCompletion, text: bytes) {
    var r := Machines.Run(Bytes(c.operation, c.requirements, c.decode), NEW_STATE, text);
    r.Advance? && r.next.1.terminal
  }

  /** The last event is in chunk i - 1, and what has arrived by then is a whole stream. */
  ghost predicate EndsAt(c: ResponseCompletion, chunks: seq<bytes>, i: nat)
    requires i <= |chunks|
  {
    AcceptsStream(c.operation, c.requirements, c.decode, Machines.Concat(chunks[..i]))
    && forall j :: 0 <= j < i ==> !Ended(c, Machines.Concat(chunks[..j]))
  }

  lemma AcceptedEnds(c: ResponseCompletion, text: bytes)
    requires AcceptsStream(c.operation, c.requirements, c.decode, text)
    ensures Ended(c, text)
  {
    hide Bytes;
  }

  lemma NothingEnds(c: ResponseCompletion)
    ensures !Ended(c, "")
  {
    hide Bytes;
  }

  lemma ReadEnds(c: ResponseCompletion, text: bytes)
    requires c.stream && !c.err && HasRead(c, text)
    ensures c.terminal <==> Ended(c, text)
  {
    hide Bytes;
  }

  /** Nothing ended up to i, and what arrives with the next chunk is refused or not whole. */
  lemma NeverEnds(c: ResponseCompletion, chunks: seq<bytes>, i: nat)
    requires i <= |chunks| && forall j :: 0 <= j < i ==> !Ended(c, Machines.Concat(chunks[..j]))
    requires c.stream && !AcceptsStream(c.operation, c.requirements, c.decode, Machines.Concat(chunks[..i]))
    requires i < |chunks| ==> Ended(c, Machines.Concat(chunks[..i])) || !Unobjected(c, Machines.Concat(chunks[..i]))
    ensures forall k :: 0 <= k <= |chunks| ==> !EndsAt(c, chunks, k)
  {
    hide Bytes, AcceptsStream, Ended, Unobjected;
    forall k | 0 <= k <= |chunks| ensures !EndsAt(c, chunks, k) {
      if EndsAt(c, chunks, k) {
        AcceptedEnds(c, Machines.Concat(chunks[..k]));
        if k > i && !Ended(c, Machines.Concat(chunks[..i])) { RejectedLater(c, chunks, i, k); }
      }
    }
  }

  lemma RejectedLater(c: ResponseCompletion, chunks: seq<bytes>, i: nat, k: nat)
    requires i <= k <= |chunks| && c.stream && !Unobjected(c, Machines.Concat(chunks[..i]))
    ensures !Ended(c, Machines.Concat(chunks[..k]))
  {
    hide Bytes;
    assert chunks[..k][..i] == chunks[..i];
    RejectedPrefix(c, chunks[..k], i);
  }

  // ---- How a stream is split -------------------------------------------------------------

  /** A comment line behind whole lines is held, and then forgotten. */
  lemma FrameComment(text: bytes)
    requires EventStream.Frame(EventStream.OPEN, text).Advance? && EventStream.Frame(EventStream.OPEN, text).next == EventStream.OPEN
    ensures var ds := EventStream.Frame(EventStream.OPEN, text).events;
      EventStream.Frame(EventStream.OPEN, text + ":") == Machines.Advance(EventStream.Framer(":", EventStream.EMPTY), ds)
      && EventStream.Frame(EventStream.OPEN, text + ":\n") == Machines.Advance(EventStream.OPEN, ds)
  {
    hide EventStream.Step;
    CommentSteps();
    var longer := text + ":\n";
    Machines.RunStep(EventStream.Step, EventStream.OPEN, longer, |text|);
    Machines.RunStep(EventStream.Step, EventStream.OPEN, longer, |text| + 1);
    hide Machines.Run;
    assert longer[..|text|] == text && longer[..|text| + 1] == text + ":" && longer[..|text| + 2] == longer;
  }

  lemma CommentSteps()
    ensures EventStream.Step(EventStream.OPEN, ':') == Machines.Advance(EventStream.Framer(":", EventStream.EMPTY), [])
    ensures EventStream.Step(EventStream.Framer(":", EventStream.EMPTY), '\n') == Machines.Advance(EventStream.OPEN, [])
  {
    hide EventStream.FieldName, EventStream.FieldValue;
    assert "" + [':'] == ":";
  }

  lemma ColonIsNoSpace()
    ensures TrimSpace(":") == ":"
  {
    hide LeadingSpace, TrailingSpace, SPACES;
    SpacesAreNoColons();
    NoLeadingSpace(":", SPACES);
    NoTrailingSpace(":", SPACES);
  }

  lemma SpacesAreNoColons()
    ensures forall i :: 0 <= i < |SPACES| ==> |SPACES[i]| > 0 && SPACES[i][0] != ':' && SPACES[i][|SPACES[i]| - 1] != ':'
  {
  }

  lemma NothingIsTrimmed()
    ensures TrimSpace("") == ""
  {
    hide SPACES;
  }

  /** A comment behind the last event: its colon alone is left over, the whole line is not. */
  lemma CommentLeavesOver(op: Operation, req: Requirements, decode: StreamEvents.Decoder, text: bytes)
    requires AcceptsStream(op, req, decode, text) && EventStream.Rest(text) == ""
    ensures !AcceptsStream(op, req, decode, text + ":") && AcceptsStream(op, req, decode, text + ":\n")
    ensures var r := Machines.Run(Bytes(op, req, decode), NEW_STATE, text + ":"); r.Advance? && r.next.1.terminal
  {
    hide TrimSpace, Bytes, Eventer, Machines.Run;
    EventStream.FrameByLine(EventStream.EMPTY, text);
    FedEvents(op, req, decode, text);
    FrameComment(text);
    FedEvents(op, req, decode, text + ":");
    FedEvents(op, req, decode, text + ":\n");
    ColonIsNoSpace();
    NothingIsTrimmed();
  }

  lemma FedEvents(op: Operation, req: Requirements, decode: StreamEvents.Decoder, text: bytes)
    ensures Machines.Run(Bytes(op, req, decode), NEW_STATE, text)
            == Machines.Fed(Eventer(op, req, decode), NEW_STREAM, EventStream.Frame(EventStream.OPEN, text))
  {
    hide EventStep, EventStream.Step;
    Machines.PipeIsFed(EventStream.Step, Eventer(op, req, decode), NEW_STATE, text);
  }

  /** The same accepted text is delivered in one chunk and refused in two. */
  lemma SplitsMatter(c: ResponseCompletion, text: bytes)
    requires c.stream && AcceptsStream(c.operation, c.requirements, c.decode, text) && EventStream.Rest(text) == ""
    ensures AcceptsStream(c.operation, c.requirements, c.decode, text + ":\n")
    ensures Machines.Concat([text + ":\n"]) == Machines.Concat([text + ":", "\n"]) == text + ":\n"
    ensures EndsAt(c, [text + ":\n"], 1) && forall i :: 0 <= i <= 2 ==> !EndsAt(c, [text + ":", "\n"], i)
  {
    hide Bytes, AcceptsStream, EventStep, Machines.Run, Machines.Concat;
    CommentLeavesOver(c.operation, c.requirements, c.decode, text);
    Cuts(text);
    NothingEnds(c);
    EndsAfterColon(c, text);
    var whole, split := [text + ":\n"], [text + ":", "\n"];
    if AcceptsStream(c.operation, c.requirements, c.decode, "") { AcceptedEnds(c, ""); }
    assert Ended(c, Machines.Concat(split[..1]));
  }

  lemma EndsAfterColon(c: ResponseCompletion, text: bytes)
    requires c.stream && AcceptsStream(c.operation, c.requirements, c.decode, text) && EventStream.Rest(text) == ""
    ensures Ended(c, text + ":")
  {
    hide Bytes, AcceptsStream, Machines.Run;
    CommentLeavesOver(c.operation, c.requirements, c.decode, text);
  }

  lemma Cuts(text: bytes)
    ensures var whole, split := [text + ":\n"], [text + ":", "\n"];
      Machines.Concat(whole[..0]) == Machines.Concat(split[..0]) == "" && Machines.Concat(split[..1]) == text + ":"
      && Machines.Concat(whole[..1]) == Machines.Concat(split[..2]) == Machines.Concat(whole) == Machines.Concat(split) == text + ":\n"
  {
    var whole, split := [text + ":\n"], [text + ":", "\n"];
    assert whole[..0] == [] && whole[..1] == whole && split[..0] == [] && split[..1] == [text + ":"] && split[..2] == split;
    assert text + ":" + "\n" == text + ":\n";
  }

  /** streamResponse, with the reads of the upstream body as a list of pieces. */
  method StreamResponse(c: ResponseCompletion, chunks: seq<bytes>, ending: Ending)
    returns (result: Result, committed: bool, delivered: bytes)
    requires Ready(c) && c.State() == NEW_STATE && c.json.State() == NEW
    modifies c, c.json
    // What is delivered is a prefix of the body, and nothing the checker objected to.
    ensures delivered <= Machines.Concat(chunks) && Unobjected(c, delivered)
    ensures !committed ==> delivered == ""
    // A buffered answer is delivered whole exactly when it is accepted.
    ensures !c.stream ==> (result == Delivered <==> !old(c.err) && ending == Eof
                                                    && AcceptsBody(c.operation, c.requirements, c.countTokens, Machines.Concat(chunks)))
    ensures !c.stream && result == Delivered ==> committed && delivered == Machines.Concat(chunks)
    // A small one that is not accepted leaves no trace.
    ensures !c.stream && |Machines.Concat(chunks)| <= PREVIEW && result != Delivered ==> !committed
    // A stream is reported delivered only if what was delivered is a complete stream.
    ensures c.stream && result == Delivered ==> AcceptsStream(c.operation, c.requirements, c.decode, delivered)
    // It is, exactly when the chunk that brings the last event completes a whole one.
    ensures c.stream ==> (result == Delivered <==> !old(c.err) && exists i :: 0 <= i <= |chunks| && EndsAt(c, chunks, i))
    ensures c.stream && result == Delivered ==> exists i :: 0 <= i <= |chunks| && EndsAt(c, chunks, i) && delivered == Machines.Concat(chunks[..i])
  {
    hide EndsAt, Ended, Unobjected, Bytes, CheckText, AcceptsBody, AcceptsStream, HasRead, Ready;
    committed, delivered := false, "";
    NothingUnobjected(c);
    if c.err { return Incomplete, committed, delivered; }
    NothingRead(c);
    NothingEnds(c);
    var preview: bytes := "";
    if c.stream { committed := true; }
    var i := 0;
    while i < |chunks|
      invariant 0 <= i <= |chunks|
      invariant Ready(c) && !c.err && HasRead(c, Machines.Concat(chunks[..i]))
      invariant Unobjected(c, Machines.Concat(chunks[..i]))
      invariant c.stream ==> committed && forall j :: 0 <= j <= i ==> !Ended(c, Machines.Concat(chunks[..j]))
      invariant if committed then preview == "" && delivered == Machines.Concat(chunks[..i])
                else delivered == "" && preview == Machines.Concat(chunks[..i])
      invariant committed && !c.stream ==> |Machines.Concat(chunks[..i])| > PREVIEW
    {
      ConcatFront(chunks, i);
      ConcatPrefix(chunks, i);
      ConcatPrefix(chunks, i + 1);
      ghost var text := Machines.Concat(chunks[..i]);
      assert !committed ==> Unobjected(c, "") by { NothingUnobjected(c); }
      FeedPiece(c, text, chunks[i]);
      ReadIsJudged(c, text + chunks[i]);
      if c.err {
        Rejected(c, chunks, i + 1);
        if c.stream { Refused(c, chunks, i + 1); }
        return Incomplete, committed, delivered;
      }
      if c.stream { ReadEnds(c, text + chunks[i]); }
      if c.stream && c.terminal {
        var whole := Judge(c, text + chunks[i]);
        if !whole {
          NeverEnds(c, chunks, i + 1);
          return Incomplete, committed, delivered;
        }
        EndsHere(c, chunks, i + 1);
      }
      if !committed && |preview| + |chunks[i]| <= PREVIEW {
        preview := preview + chunks[i];
      } else {
        committed := true;
        assert delivered + preview == text;
        delivered := delivered + preview + chunks[i];
        preview := "";
      }
      i := i + 1;
      if c.stream && c.terminal { return Delivered, committed, delivered; }
    }
    assert chunks[..i] == chunks;
    NothingUnobjected(c);
    if c.stream { NotEnded(c, chunks); }
    if ending != Eof { return UpstreamFailed, committed, delivered; }
    var ok := Judge(c, Machines.Concat(chunks));
    if !ok { return Incomplete, committed, delivered; }
    committed := true;
    assert delivered + preview == Machines.Concat(chunks);
    delivered := delivered + preview;
    result := Delivered;
  }

  lemma EndsHere(c: ResponseCompletion, chunks: seq<bytes>, i: nat)
    requires i <= |chunks| && forall j :: 0 <= j < i ==> !Ended(c, Machines.Concat(chunks[..j]))
    requires AcceptsStream(c.operation, c.requirements, c.decode, Machines.Concat(chunks[..i]))
    ensures EndsAt(c, chunks, i)
  {
  }

  lemma Refused(c: ResponseCompletion, chunks: seq<bytes>, i: nat)
    requires i <= |chunks| && forall j :: 0 <= j < i ==> !Ended(c, Machines.Concat(chunks[..j]))
    requires c.stream && !Unobjected(c, Machines.Concat(chunks[..i]))
    ensures forall k :: 0 <= k <= |chunks| ==> !EndsAt(c, chunks, k)
  {
    hide Bytes, Unobjected, EndsAt, Ended, AcceptsStream;
    RejectedLater(c, chunks, i, i);
    if AcceptsStream(c.operation, c.requirements, c.decode, Machines.Concat(chunks[..i])) { AcceptedEnds(c, Machines.Concat(chunks[..i])); }
    NeverEnds(c, chunks, i);
  }

  lemma NotEnded(c: ResponseCompletion, chunks: seq<bytes>)
    requires c.stream && forall j :: 0 <= j <= |chunks| ==> !Ended(c, Machines.Concat(chunks[..j]))
    ensures !AcceptsStream(c.operation, c.requirements, c.decode, Machines.Concat(chunks))
    ensures forall k :: 0 <= k <= |chunks| ==> !EndsAt(c, chunks, k)
  {
    hide Bytes, EndsAt, Ended, AcceptsStream;
    assert chunks[..|chunks|] == chunks;
    if AcceptsStream(c.operation, c.requirements, c.decode, Machines.Concat(chunks)) { AcceptedEnds(c, Machines.Concat(chunks)); }
    NeverEnds(c, chunks, |chunks|);
  }

  lemma NothingUnobjected(c: ResponseCompletion)
    ensures Unobjected(c, "")
  {
    CheckNothing(Some(c.operation), c.requirements, NEW);
    hide Bytes, CheckText;
  }

  lemma NothingRead(c: ResponseCompletion)
    requires c.State() == NEW_STATE && c.json.State() == NEW && !c.err
    ensures HasRead(c, "")
  {
    CheckNothing(Some(c.operation), c.requirements, NEW);
    hide Bytes, CheckText;
  }

  lemma ReadIsJudged(c: ResponseCompletion, text: bytes)
    requires HasRead(c, text)
    ensures c.err <==> !Unobjected(c, text)
  {
    hide Bytes, CheckText;
  }

  /** Once a piece is objected to, the body cannot be accepted. */
  lemma Rejected(c: ResponseCompletion, chunks: seq<bytes>, i: nat)
    requires i <= |chunks| && !Unobjected(c, Machines.Concat(chunks[..i]))
    ensures !c.stream ==> !AcceptsBody(c.operation, c.requirements, c.countTokens, Machines.Concat(chunks))
  {
    hide Unobjected, AcceptsBody;
    RejectedPrefix(c, chunks, i);
    if !c.stream && AcceptsBody(c.operation, c.requirements, c.countTokens, Machines.Concat(chunks)) {
      AcceptedUnobjected(c, Machines.Concat(chunks));
    }
  }
}
