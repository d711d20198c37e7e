/** Which texts are accepted streams, exactly. */
module StreamShape {
  // A text is accepted if and only if it is framed to its end and its events, each decoded,
  // fit one after the other and then end the stream.  Neither the checker nor its state is
  // mentioned on that side.

  import opened GoText
  import opened CompletionContract
  import opened StreamEvents
  import opened StreamVerdict
  import EventStream
  import ChatShape
  import MessagesShape
  import MessagesStream
  import ResponsesShape
  import ResponsesStream
  import ChatStream
  import JsonScanner
  import Machines

  type Dispatches = seq<EventStream.Dispatch>

  /** Lines are framed to the end of the text, and nothing is left over. */
  predicate Framed(text: bytes) {
    var f := EventStream.Frame(EventStream.OPEN, text);
    f.Advance? && TrimSpace(f.next.line) == "" && f.next.pending == EventStream.EMPTY
  }

  lemma JudgedByEvents(op: Operation, req: Requirements, decode: Decoder, text: bytes)
    ensures AcceptsStream(op, req, decode, text)
            <==> Framed(text) && var r := Events(op, req, decode, NEW_STREAM, Dispatched(text)); r.Advance? && r.next.terminal
  {
    hide EventStep;
    Machines.PipeIsFed(EventStream.Step, Eventer(op, req, decode), NEW_STATE, text);
  }

  /** A stretch of events is taken and does not end the stream. */
  ghost predicate GoesOn(op: Operation, req: Requirements, decode: Decoder, ds: Dispatches) {
    var r := Events(op, req, decode, NEW_STREAM, ds);
    r.Advance? && !r.next.terminal
  }

  lemma OneEnd(op: Operation, req: Requirements, decode: Decoder, ds: Dispatches)
    ensures (var r := Events(op, req, decode, NEW_STREAM, ds); r.Advance? && r.next.terminal)
            <==> |ds| > 0 && GoesOn(op, req, decode, ds[..|ds| - 1])
                 && var r := EventStep(op, req, decode, Events(op, req, decode, NEW_STREAM, ds[..|ds| - 1]).next, ds[|ds| - 1]);
                   r.Advance? && r.next.terminal
  {
    hide DecodedEvent, JsonScanner.Accepts, ChatStream.MayEnd;
  }

  /** An event that decodes and reports no failure. */
  predicate Sound(op: Operation, decode: Decoder, d: EventStream.Dispatch) {
    Decodes(decode, d) && !ReportsFailure(op, Event(decode, d), d.event)
  }

  predicate AllSound(op: Operation, decode: Decoder, ds: Dispatches) {
    forall k :: 0 <= k < |ds| ==> Sound(op, decode, ds[k])
  }

  lemma AllSoundFront(op: Operation, decode: Decoder, ds: Dispatches)
    requires |ds| > 0
    ensures AllSound(op, decode, ds) <==> AllSound(op, decode, ds[..|ds| - 1]) && Sound(op, decode, ds[|ds| - 1])
    ensures AllSound(op, decode, ds) ==> AllDecode(decode, ds)
  {
    hide ReportsFailure, Decodes;
    var front := ds[..|ds| - 1];
    assert forall k :: 0 <= k < |front| ==> front[k] == ds[k];
  }

  // ---- Messages ------------------------------------------------------------------------------

  /** message_start brought a message with content. */
  predicate Began(ns: seq<MessagesStream.Notice>) {
    exists n :: n in ns && n.kind == MessagesStream.MESSAGE_START && n.body.messageType == "message" && StartsWithBracket(n.body.messageContent)
  }

  /** Some message_delta gave a reason to stop. */
  predicate GaveReason(ns: seq<MessagesStream.Notice>) {
    exists n :: n in ns && n.kind == MessagesStream.MESSAGE_DELTA && n.body.stop.Stop? && n.body.stop.reason != ""
  }

  predicate DeltasDecode(ns: seq<MessagesStream.Notice>) {
    forall n :: n in ns ==> !(n.kind == MessagesStream.MESSAGE_DELTA && n.body.stop.BadDelta?)
  }

  predicate NoneEnds(ns: seq<MessagesStream.Notice>) {
    forall n :: n in ns ==> n.kind != MessagesStream.MESSAGE_STOP
  }

  ghost predicate MessagesFront(req: Requirements, decode: Decoder, ds: Dispatches) {
    AllSound(Messages, decode, ds) && AllDecode(decode, ds)
    && var ns := MessagesNotices(decode, ds);
      NoneEnds(ns) && DeltasDecode(ns) && MessagesShape.AllFit(req, ns)
  }

  /** A whole Messages stream. */
  ghost predicate MessagesWhole(req: Requirements, decode: Decoder, ds: Dispatches) {
    |ds| > 0 && MessagesFront(req, decode, ds[..|ds| - 1]) && Sound(Messages, decode, ds[|ds| - 1])
    && NoticeOf(decode, ds[|ds| - 1]).kind == MessagesStream.MESSAGE_STOP
    && var ns := MessagesNotices(decode, ds[..|ds| - 1]);
      MessagesShape.Ended(req, ns) && Began(ns) && GaveReason(ns)
  }

  function NoticeOf(decode: Decoder, d: EventStream.Dispatch): MessagesStream.Notice
    requires decode(d.event, d.data).Some?
  {
    MessagesStream.Notice(KindOf(Event(decode, d), d.event), Event(decode, d).messages)
  }

  lemma MessagesEventIs(req: Requirements, decode: Decoder, s: StreamState, d: EventStream.Dispatch)
    requires !s.terminal
    ensures var r := EventStep(Messages, req, decode, s, d);
      (r.Advance? && !r.next.terminal
       <==> Sound(Messages, decode, d) && NoticeOf(decode, d).kind != MessagesStream.MESSAGE_STOP
            && MessagesStream.ToolStep(req, s.tools, NoticeOf(decode, d)).Advance? && !MessagesStream.FlagsRefuse(s.flags, NoticeOf(decode, d)))
      && (r.Advance? && !r.next.terminal ==>
            r.next == s.(tools := MessagesStream.ToolStep(req, s.tools, NoticeOf(decode, d)).next,
                         flags := MessagesStream.FlagsAfter(s.flags, NoticeOf(decode, d))))
      && (r.Advance? && r.next.terminal
          <==> Sound(Messages, decode, d) && NoticeOf(decode, d).kind == MessagesStream.MESSAGE_STOP
               && MessagesStream.MayStop(req, s.tools) && s.flags.started && s.flags.stopped)
  {
    hide MessagesStream.ToolStep, MessagesStream.MayStop, ChatStream.MayEnd, JsonScanner.Accepts, ReportsFailure,
      MessagesStream.FlagsRefuse, MessagesStream.FlagsAfter;
  }

  lemma MoreNotices(ns: seq<MessagesStream.Notice>, n: MessagesStream.Notice)
    ensures NoneEnds(ns + [n]) <==> NoneEnds(ns) && n.kind != MessagesStream.MESSAGE_STOP
    ensures DeltasDecode(ns + [n]) <==> DeltasDecode(ns) && !(n.kind == MessagesStream.MESSAGE_DELTA && n.body.stop.BadDelta?)
    ensures var f := MessagesStream.FlagsAfter(MessagesStream.Flags(Began(ns), GaveReason(ns)), n);
      Began(ns + [n]) == f.started && GaveReason(ns + [n]) == f.stopped
  {
    hide StartsWithBracket;
    assert forall m :: m in ns + [n] <==> m in ns || m == n;
    assert n in ns + [n];
  }

  /** The state before the end is what the events so far say. */
  ghost predicate MessagesState(req: Requirements, s: StreamState, ns: seq<MessagesStream.Notice>) {
    !s.terminal && s.flags == MessagesStream.Flags(Began(ns), GaveReason(ns))
    && MessagesStream.Follow(req, NO_TOOLS, ns).Advance? && MessagesStream.Follow(req, NO_TOOLS, ns).next == s.tools
  }

  lemma FollowMore(req: Requirements, ns: seq<MessagesStream.Notice>, n: MessagesStream.Notice)
    ensures var f, g := MessagesStream.Follow(req, NO_TOOLS, ns), MessagesStream.Follow(req, NO_TOOLS, ns + [n]);
      (g.Advance? <==> f.Advance? && MessagesStream.ToolStep(req, f.next, n).Advance?)
      && (g.Advance? ==> g.next == MessagesStream.ToolStep(req, f.next, n).next)
  {
    hide MessagesStream.ToolStep;
    assert (ns + [n])[..|ns|] == ns;
  }

  lemma NoticesMore(decode: Decoder, ds: Dispatches)
    requires |ds| > 0 && AllDecode(decode, ds)
    ensures AllDecode(decode, ds[..|ds| - 1]) && decode(ds[|ds| - 1].event, ds[|ds| - 1].data).Some?
    ensures MessagesNotices(decode, ds) == MessagesNotices(decode, ds[..|ds| - 1]) + [NoticeOf(decode, ds[|ds| - 1])]
  {
    AllDecodeFront(decode, ds);
  }

  lemma FitsMore(req: Requirements, ns: seq<MessagesStream.Notice>, n: MessagesStream.Notice)
    ensures MessagesShape.AllFit(req, ns + [n]) <==> MessagesShape.AllFit(req, ns) && MessagesStream.Follow(req, NO_TOOLS, ns + [n]).Advance?
  {
    hide MessagesStream.Follow, MessagesShape.AllFit, MessagesShape.AllShown, MessagesStream.ToolStep;
    MessagesShape.TakesExactlyWhatFits(req, ns);
    MessagesShape.TakesExactlyWhatFits(req, ns + [n]);
    FollowMore(req, ns, n);
  }

  lemma MessagesFrontMore(req: Requirements, decode: Decoder, ds: Dispatches)
    requires |ds| > 0
    ensures MessagesFront(req, decode, ds)
            <==> MessagesFront(req, decode, ds[..|ds| - 1]) && Sound(Messages, decode, ds[|ds| - 1])
                 && var ns, n := MessagesNotices(decode, ds[..|ds| - 1]), NoticeOf(decode, ds[|ds| - 1]);
                   n.kind != MessagesStream.MESSAGE_STOP && !(n.kind == MessagesStream.MESSAGE_DELTA && n.body.stop.BadDelta?)
                   && MessagesStream.Follow(req, NO_TOOLS, ns + [n]).Advance?
    ensures AllDecode(decode, ds) ==>
              MessagesNotices(decode, ds) == MessagesNotices(decode, ds[..|ds| - 1]) + [NoticeOf(decode, ds[|ds| - 1])]
  {
    hide MessagesStream.Follow, MessagesShape.AllFit, AllSound, AllDecode, Decodes, ReportsFailure, NoneEnds, DeltasDecode, MessagesNotices,
      NoticeOf, Began, GaveReason, MessagesStream.FlagsAfter;
    AllSoundFront(Messages, decode, ds);
    AllSoundDecodes(Messages, decode, ds);
    if AllDecode(decode, ds) {
      NoticesMore(decode, ds);
      var ns, n := MessagesNotices(decode, ds[..|ds| - 1]), NoticeOf(decode, ds[|ds| - 1]);
      MoreNotices(ns, n);
      FitsMore(req, ns, n);
    }
  }

  lemma AllSoundDecodes(op: Operation, decode: Decoder, ds: Dispatches)
    ensures AllSound(op, decode, ds) ==> AllDecode(decode, ds)
  {
    hide ReportsFailure, Decodes;
  }

  lemma WentOn(op: Operation, req: Requirements, decode: Decoder, ds: Dispatches)
    requires GoesOn(op, req, decode, ds)
    ensures Events(op, req, decode, NEW_STREAM, ds).Advance? && !Events(op, req, decode, NEW_STREAM, ds).next.terminal
  {
  }

  lemma EventsMore(op: Operation, req: Requirements, decode: Decoder, ds: Dispatches)
    requires |ds| > 0
    ensures GoesOn(op, req, decode, ds)
            <==> GoesOn(op, req, decode, ds[..|ds| - 1])
                 && var r := EventStep(op, req, decode, Events(op, req, decode, NEW_STREAM, ds[..|ds| - 1]).next, ds[|ds| - 1]);
                   r.Advance? && !r.next.terminal
    ensures GoesOn(op, req, decode, ds) ==>
              Events(op, req, decode, NEW_STREAM, ds).next
              == EventStep(op, req, decode, Events(op, req, decode, NEW_STREAM, ds[..|ds| - 1]).next, ds[|ds| - 1]).next
  {
    hide DecodedEvent, JsonScanner.Accepts, ChatStream.MayEnd;
  }

  lemma {:induction false} MessagesFrontIs(req: Requirements, decode: Decoder, ds: Dispatches)
    ensures GoesOn(Messages, req, decode, ds) <==> MessagesFront(req, decode, ds)
    ensures GoesOn(Messages, req, decode, ds) ==>
              AllDecode(decode, ds) && MessagesState(req, Events(Messages, req, decode, NEW_STREAM, ds).next, MessagesNotices(decode, ds))
  {
    if |ds| == 0 {
      NoMessages(req, decode);
    } else {
      hide GoesOn, Events, EventStep, MessagesStream.ToolStep, MessagesStream.Follow, MessagesFront, Sound, Decodes, Began, GaveReason, MessagesNotices,
        AllDecode, MessagesStream.FlagsAfter, NoticeOf;
      var front, d := ds[..|ds| - 1], ds[|ds| - 1];
      MessagesFrontIs(req, decode, front);
      EventsMore(Messages, req, decode, ds);
      MessagesFrontMore(req, decode, ds);
      FrontDecodes(req, decode, ds);
      if GoesOn(Messages, req, decode, front) {
        var s, ns := Events(Messages, req, decode, NEW_STREAM, front).next, MessagesNotices(decode, front);
        MessagesEventIs(req, decode, s, d);
        if Sound(Messages, decode, d) {
          SoundDecodes(Messages, decode, d);
          FollowMore(req, ns, NoticeOf(decode, d));
          MoreNotices(ns, NoticeOf(decode, d));
        }
      }
    }
  }

  lemma SoundDecodes(op: Operation, decode: Decoder, d: EventStream.Dispatch)
    requires Sound(op, decode, d)
    ensures decode(d.event, d.data).Some?
  {
  }

  lemma FrontDecodes(req: Requirements, decode: Decoder, ds: Dispatches)
    ensures MessagesFront(req, decode, ds) ==> AllDecode(decode, ds)
  {
  }

  lemma NoMessages(req: Requirements, decode: Decoder)
    ensures GoesOn(Messages, req, decode, []) && MessagesFront(req, decode, [])
    ensures MessagesState(req, Events(Messages, req, decode, NEW_STREAM, []).next, [])
  {
    MessagesShape.TakesExactlyWhatFits(req, []);
  }

  /** A text is an accepted Messages stream if and only if it is framed to its end and its
      events make up a whole one. */
  lemma MessagesExactly(req: Requirements, decode: Decoder, text: bytes)
    ensures AcceptsStream(Messages, req, decode, text) <==> Framed(text) && MessagesWhole(req, decode, Dispatched(text))
  {
    hide GoesOn, EventStep, Events, AcceptsStream, Framed, MessagesFront, Sound, Began, GaveReason, MessagesStream.MayStop, MessagesShape.Ended, MessagesNotices,
      MessagesStream.Follow;
    var ds := Dispatched(text);
    JudgedByEvents(Messages, req, decode, text);
    OneEnd(Messages, req, decode, ds);
    if |ds| > 0 {
      var front, d := ds[..|ds| - 1], ds[|ds| - 1];
      MessagesFrontIs(req, decode, front);
      if GoesOn(Messages, req, decode, front) {
        WentOn(Messages, req, decode, front);
        MessagesEventIs(req, decode, Events(Messages, req, decode, NEW_STREAM, front).next, d);
        MessagesShape.StopsExactlyAtTheEnd(req, MessagesNotices(decode, front));
      }
    }
  }

  // ---- Responses --------------------------------------------------------------------------------

  predicate NoneCompletes(ns: seq<ResponsesStream.Notice>) {
    forall n :: n in ns ==> n.kind != ResponsesStream.COMPLETED
  }

  ghost predicate ResponsesFront(req: Requirements, decode: Decoder, ds: Dispatches) {
    AllSound(Responses, decode, ds) && AllDecode(decode, ds)
    && var ns := ResponsesNotices(decode, ds); NoneCompletes(ns) && ResponsesShape.AllFit(req, ns)
  }

  /** The final response is a complete one, and its output fits what was sent. */
  ghost predicate Completes(req: Requirements, ns: seq<ResponsesStream.Notice>, b: ResponsesBody) {
    AcceptsBody(Responses, req, false, b.response) && ResponsesStream.ReportsCompletion(b)
    && b.finalOutput.Some? && ResponsesShape.OutputFits(ns, b.finalOutput.value)
  }

  /** A whole Responses stream. */
  ghost predicate ResponsesWhole(req: Requirements, decode: Decoder, ds: Dispatches) {
    |ds| > 0 && ResponsesFront(req, decode, ds[..|ds| - 1]) && Sound(Responses, decode, ds[|ds| - 1])
    && ResponseOf(decode, ds[|ds| - 1]).kind == ResponsesStream.COMPLETED
    && Completes(req, ResponsesNotices(decode, ds[..|ds| - 1]), ResponseOf(decode, ds[|ds| - 1]).body)
  }

  function ResponseOf(decode: Decoder, d: EventStream.Dispatch): ResponsesStream.Notice
    requires decode(d.event, d.data).Some?
  {
    ResponsesStream.Notice(KindOf(Event(decode, d), d.event), Event(decode, d).responses)
  }

  lemma ResponsesEventIs(req: Requirements, decode: Decoder, s: StreamState, d: EventStream.Dispatch)
    requires !s.terminal
    ensures var r := EventStep(Responses, req, decode, s, d);
      (r.Advance? && !r.next.terminal
       <==> Sound(Responses, decode, d) && ResponseOf(decode, d).kind != ResponsesStream.COMPLETED
            && ResponsesStream.ToolStep(req, s.tools, ResponseOf(decode, d)).Advance?)
      && (r.Advance? && !r.next.terminal ==> r.next == s.(tools := ResponsesStream.ToolStep(req, s.tools, ResponseOf(decode, d)).next))
      && (r.Advance? && r.next.terminal
          <==> Sound(Responses, decode, d) && ResponseOf(decode, d).kind == ResponsesStream.COMPLETED
               && ResponsesStream.MayComplete(req, s.tools, ResponseOf(decode, d).body))
  {
    hide ResponsesStream.ToolStep, ResponsesStream.MayComplete, ChatStream.MayEnd, JsonScanner.Accepts, ReportsFailure;
  }

  lemma MoreResponses(ns: seq<ResponsesStream.Notice>, n: ResponsesStream.Notice)
    ensures NoneCompletes(ns + [n]) <==> NoneCompletes(ns) && n.kind != ResponsesStream.COMPLETED
  {
    assert forall m :: m in ns + [n] <==> m in ns || m == n;
  }

  ghost predicate ResponsesState(req: Requirements, s: StreamState, ns: seq<ResponsesStream.Notice>) {
    !s.terminal && ResponsesStream.Follow(req, NO_TOOLS, ns).Advance? && ResponsesStream.Follow(req, NO_TOOLS, ns).next == s.tools
  }

  lemma CallsMore(req: Requirements, ns: seq<ResponsesStream.Notice>, n: ResponsesStream.Notice)
    ensures var f, g := ResponsesStream.Follow(req, NO_TOOLS, ns), ResponsesStream.Follow(req, NO_TOOLS, ns + [n]);
      (g.Advance? <==> f.Advance? && ResponsesStream.ToolStep(req, f.next, n).Advance?)
      && (g.Advance? ==> g.next == ResponsesStream.ToolStep(req, f.next, n).next)
  {
    hide ResponsesStream.ToolStep;
    assert (ns + [n])[..|ns|] == ns;
  }

  lemma ResponsesMore(decode: Decoder, ds: Dispatches)
    requires |ds| > 0 && AllDecode(decode, ds)
    ensures AllDecode(decode, ds[..|ds| - 1]) && decode(ds[|ds| - 1].event, ds[|ds| - 1].data).Some?
    ensures ResponsesNotices(decode, ds) == ResponsesNotices(decode, ds[..|ds| - 1]) + [ResponseOf(decode, ds[|ds| - 1])]
  {
    AllDecodeFront(decode, ds);
  }

  lemma CallFitsMore(req: Requirements, ns: seq<ResponsesStream.Notice>, n: ResponsesStream.Notice)
    ensures ResponsesShape.AllFit(req, ns + [n]) <==> ResponsesShape.AllFit(req, ns) && ResponsesStream.Follow(req, NO_TOOLS, ns + [n]).Advance?
  {
    hide ResponsesStream.Follow, ResponsesShape.AllFit, ResponsesShape.AllShown, ResponsesStream.ToolStep;
    ResponsesShape.TakesExactlyWhatFits(req, ns);
    ResponsesShape.TakesExactlyWhatFits(req, ns + [n]);
    CallsMore(req, ns, n);
  }

  lemma ResponsesFrontMore(req: Requirements, decode: Decoder, ds: Dispatches)
    requires |ds| > 0
    ensures ResponsesFront(req, decode, ds)
            <==> ResponsesFront(req, decode, ds[..|ds| - 1]) && Sound(Responses, decode, ds[|ds| - 1])
                 && var ns, n := ResponsesNotices(decode, ds[..|ds| - 1]), ResponseOf(decode, ds[|ds| - 1]);
                   n.kind != ResponsesStream.COMPLETED && ResponsesStream.Follow(req, NO_TOOLS, ns + [n]).Advance?
    ensures ResponsesFront(req, decode, ds) ==>
              AllDecode(decode, ds)
              && ResponsesNotices(decode, ds) == ResponsesNotices(decode, ds[..|ds| - 1]) + [ResponseOf(decode, ds[|ds| - 1])]
  {
    hide ResponsesStream.Follow, ResponsesShape.AllFit, AllSound, AllDecode, Decodes, ReportsFailure, NoneCompletes, ResponsesNotices, ResponseOf;
    AllSoundFront(Responses, decode, ds);
    AllSoundDecodes(Responses, decode, ds);
    if AllDecode(decode, ds) {
      ResponsesMore(decode, ds);
      var ns, n := ResponsesNotices(decode, ds[..|ds| - 1]), ResponseOf(decode, ds[|ds| - 1]);
      MoreResponses(ns, n);
      CallFitsMore(req, ns, n);
    }
  }

  lemma {:induction false} ResponsesFrontIs(req: Requirements, decode: Decoder, ds: Dispatches)
    ensures GoesOn(Responses, req, decode, ds) <==> ResponsesFront(req, decode, ds)
    ensures GoesOn(Responses, req, decode, ds) ==>
              AllDecode(decode, ds) && ResponsesState(req, Events(Responses, req, decode, NEW_STREAM, ds).next, ResponsesNotices(decode, ds))
  {
    if |ds| == 0 {
      NoResponses(req, decode);
    } else {
      hide GoesOn, Events, EventStep, ResponsesStream.ToolStep, ResponsesStream.Follow, ResponsesFront, Sound, Decodes, ResponsesNotices, AllDecode,
        ResponseOf;
      var front, d := ds[..|ds| - 1], ds[|ds| - 1];
      ResponsesFrontIs(req, decode, front);
      EventsMore(Responses, req, decode, ds);
      ResponsesFrontMore(req, decode, ds);
      if GoesOn(Responses, req, decode, front) {
        var s, ns := Events(Responses, req, decode, NEW_STREAM, front).next, ResponsesNotices(decode, front);
        ResponsesEventIs(req, decode, s, d);
        if Sound(Responses, decode, d) {
          SoundDecodes(Responses, decode, d);
          CallsMore(req, ns, ResponseOf(decode, d));
        }
      }
    }
  }

  lemma NoResponses(req: Requirements, decode: Decoder)
    ensures GoesOn(Responses, req, decode, []) && ResponsesFront(req, decode, [])
    ensures ResponsesState(req, Events(Responses, req, decode, NEW_STREAM, []).next, [])
  {
    ResponsesShape.TakesExactlyWhatFits(req, []);
  }

  lemma CompletesExactly(req: Requirements, t: Tools, ns: seq<ResponsesStream.Notice>, b: ResponsesBody)
    requires ResponsesStream.Follow(req, NO_TOOLS, ns).Advance? && ResponsesStream.Follow(req, NO_TOOLS, ns).next == t
    ensures ResponsesStream.MayComplete(req, t, b) <==> Completes(req, ns, b)
  {
    hide ResponsesStream.Follow, AcceptsBody, ResponsesStream.ReportsCompletion, ResponsesShape.OutputFits, ResponsesStream.OutputMatches;
    if b.finalOutput.Some? { ResponsesShape.MatchesExactlyWhatFits(req, ns, b.finalOutput.value); }
  }

  /** A text is an accepted Responses stream if and only if it is framed to its end and its
      events make up a whole one. */
  lemma ResponsesExactly(req: Requirements, decode: Decoder, text: bytes)
    ensures AcceptsStream(Responses, req, decode, text) <==> Framed(text) && ResponsesWhole(req, decode, Dispatched(text))
  {
    hide GoesOn, EventStep, Events, AcceptsStream, Framed, ResponsesFront, Sound, ResponsesStream.MayComplete, Completes, ResponsesNotices,
      ResponsesStream.Follow, ResponseOf;
    var ds := Dispatched(text);
    JudgedByEvents(Responses, req, decode, text);
    OneEnd(Responses, req, decode, ds);
    if |ds| > 0 {
      var front, d := ds[..|ds| - 1], ds[|ds| - 1];
      ResponsesFrontIs(req, decode, front);
      if GoesOn(Responses, req, decode, front) {
        WentOn(Responses, req, decode, front);
        var s := Events(Responses, req, decode, NEW_STREAM, front).next;
        ResponsesEventIs(req, decode, s, d);
        if Sound(Responses, decode, d) {
          SoundDecodes(Responses, decode, d);
          CompletesExactly(req, s.tools, ResponsesNotices(decode, front), ResponseOf(decode, d).body);
        }
      }
    }
  }

  // ---- Chat ------------------------------------------------------------------------------------

  /** The choices of all chunks are good, and their bits fit. */
  ghost predicate ChunksFit(req: Requirements, hs: seq<ChatChoice>) {
    ChatShape.AllGood(req, hs) && ChatShape.AllFit(req, ChatShape.Bits(hs))
  }

  ghost predicate ChatFront(req: Requirements, decode: Decoder, ds: Dispatches) {
    AllSound(Chat, decode, ds) && AllDecode(decode, ds) && ChunksFit(req, AllChoices(decode, ds))
  }

  /** A whole Chat stream. */
  ghost predicate ChatWhole(req: Requirements, decode: Decoder, ds: Dispatches) {
    |ds| > 0 && ChatFront(req, decode, ds[..|ds| - 1]) && ds[|ds| - 1].data == DONE
    && ChatStream.StoriesComplete(req, AllChoices(decode, ds[..|ds| - 1]))
  }

  lemma ChatEventIs(req: Requirements, decode: Decoder, s: StreamState, d: EventStream.Dispatch)
    requires !s.terminal
    ensures var r := EventStep(Chat, req, decode, s, d);
      (r.Advance? && !r.next.terminal
       <==> Sound(Chat, decode, d)
            && ChatStream.Choices(req, s.tools, Event(decode, d).choices).Advance? && ChatStream.EnterAll(s.ledger, Event(decode, d).choices).Advance?)
      && (r.Advance? && !r.next.terminal ==>
            r.next == s.(tools := ChatStream.Choices(req, s.tools, Event(decode, d).choices).next,
                         ledger := ChatStream.EnterAll(s.ledger, Event(decode, d).choices).next))
      && (r.Advance? && r.next.terminal <==> d.data == DONE && ChatStream.MayEnd(req, s.tools, s.ledger))
  {
    hide ChatStream.Choices, ChatStream.EnterAll, ChatStream.MayEnd, JsonScanner.Accepts, ReportsFailure;
  }

  ghost predicate ChatState(req: Requirements, s: StreamState, hs: seq<ChatChoice>) {
    !s.terminal && ChatStream.Choices(req, NO_TOOLS, hs).Advance? && ChatStream.Choices(req, NO_TOOLS, hs).next == s.tools
    && ChatStream.EnterAll(ChatStream.NO_LEDGER, hs).Advance? && ChatStream.EnterAll(ChatStream.NO_LEDGER, hs).next == s.ledger
  }

  /** Taking choices in two stretches is taking them at once, on both ledgers. */
  lemma ChoicesMore(req: Requirements, s: StreamState, hs: seq<ChatChoice>, more: seq<ChatChoice>)
    requires ChatState(req, s, hs)
    ensures ChunksFit(req, hs + more)
            <==> ChatStream.Choices(req, s.tools, more).Advance? && ChatStream.EnterAll(s.ledger, more).Advance?
    ensures ChunksFit(req, hs + more) ==>
              ChatState(req, s.(tools := ChatStream.Choices(req, s.tools, more).next, ledger := ChatStream.EnterAll(s.ledger, more).next), hs + more)
  {
    ChatShape.TakesExactlyWhatFits(req, hs + more);
    Machines.RunAppend(ChatStream.ChoiceStepper(req), NO_TOOLS, hs, more);
    Machines.RunAppend(ChatStream.Enter, ChatStream.NO_LEDGER, hs, more);
    hide Machines.Run, ChatShape.AllGood, ChatShape.AllFit, ChatShape.Bits, ChatShape.AllShown;
    if ChatStream.Choices(req, NO_TOOLS, hs + more).Advance? { ChatStream.LedgersAgree(req, hs + more); }
  }

  lemma FitsBefore(req: Requirements, hs: seq<ChatChoice>, more: seq<ChatChoice>)
    ensures ChunksFit(req, hs + more) ==> ChunksFit(req, hs)
  {
    ChatShape.TakesExactlyWhatFits(req, hs);
    ChatShape.TakesExactlyWhatFits(req, hs + more);
    Machines.RunAppend(ChatStream.ChoiceStepper(req), NO_TOOLS, hs, more);
    hide Machines.Run, ChatShape.AllGood, ChatShape.AllFit, ChatShape.Bits, ChatShape.AllShown;
  }

  lemma ChatMore(decode: Decoder, ds: Dispatches)
    requires |ds| > 0 && AllDecode(decode, ds)
    ensures AllDecode(decode, ds[..|ds| - 1]) && decode(ds[|ds| - 1].event, ds[|ds| - 1].data).Some?
    ensures AllChoices(decode, ds) == AllChoices(decode, ds[..|ds| - 1]) + Event(decode, ds[|ds| - 1]).choices
  {
    AllDecodeFront(decode, ds);
  }

  lemma ChatFrontMore(req: Requirements, decode: Decoder, ds: Dispatches)
    requires |ds| > 0
    ensures ChatFront(req, decode, ds)
            <==> ChatFront(req, decode, ds[..|ds| - 1]) && Sound(Chat, decode, ds[|ds| - 1])
                 && ChunksFit(req, AllChoices(decode, ds[..|ds| - 1]) + Event(decode, ds[|ds| - 1]).choices)
    ensures ChatFront(req, decode, ds) ==>
              AllDecode(decode, ds)
              && AllChoices(decode, ds) == AllChoices(decode, ds[..|ds| - 1]) + Event(decode, ds[|ds| - 1]).choices
  {
    hide ChunksFit, AllSound, AllDecode, Decodes, ReportsFailure, AllChoices, Event;
    AllSoundFront(Chat, decode, ds);
    AllSoundDecodes(Chat, decode, ds);
    if AllDecode(decode, ds) {
      ChatMore(decode, ds);
      FitsBefore(req, AllChoices(decode, ds[..|ds| - 1]), Event(decode, ds[|ds| - 1]).choices);
    }
  }

  lemma NoChunks(req: Requirements, decode: Decoder)
    ensures GoesOn(Chat, req, decode, []) && ChatFront(req, decode, [])
    ensures ChatState(req, Events(Chat, req, decode, NEW_STREAM, []).next, [])
  {
    ChatShape.TakesExactlyWhatFits(req, []);
  }

  lemma {:induction false} ChatFrontIs(req: Requirements, decode: Decoder, ds: Dispatches)
    ensures GoesOn(Chat, req, decode, ds) <==> ChatFront(req, decode, ds)
    ensures GoesOn(Chat, req, decode, ds) ==>
              AllDecode(decode, ds) && ChatState(req, Events(Chat, req, decode, NEW_STREAM, ds).next, AllChoices(decode, ds))
  {
    if |ds| == 0 {
      NoChunks(req, decode);
    } else {
      hide GoesOn, Events, EventStep, ChatStream.Choices, ChatStream.EnterAll, ChatFront, Sound, Decodes, AllChoices, AllDecode, ChatState, ChunksFit, Event;
      var front, d := ds[..|ds| - 1], ds[|ds| - 1];
      ChatFrontIs(req, decode, front);
      EventsMore(Chat, req, decode, ds);
      ChatFrontMore(req, decode, ds);
      if GoesOn(Chat, req, decode, front) {
        WentOn(Chat, req, decode, front);
        var s, hs := Events(Chat, req, decode, NEW_STREAM, front).next, AllChoices(decode, front);
        ChatEventIs(req, decode, s, d);
        if Sound(Chat, decode, d) {
          SoundDecodes(Chat, decode, d);
          ChoicesMore(req, s, hs, Event(decode, d).choices);
        }
      }
    }
  }

  lemma ChatEndsExactly(req: Requirements, s: StreamState, hs: seq<ChatChoice>)
    requires ChatState(req, s, hs)
    ensures ChatStream.MayEnd(req, s.tools, s.ledger) <==> ChatStream.StoriesComplete(req, hs)
  {
    hide ChatStream.Choices, ChatStream.EnterAll, ChatStream.MayEnd, ChatStream.StoriesComplete;
    ChatShape.EndsExactly(req, hs);
  }

  /** A text is an accepted Chat stream if and only if it is framed to its end and its events
      make up a whole one. */
  lemma ChatExactly(req: Requirements, decode: Decoder, text: bytes)
    ensures AcceptsStream(Chat, req, decode, text) <==> Framed(text) && ChatWhole(req, decode, Dispatched(text))
  {
    hide GoesOn, EventStep, Events, AcceptsStream, Framed, ChatFront, Sound, ChatStream.MayEnd, ChatStream.StoriesComplete, ChatState, AllChoices;
    var ds := Dispatched(text);
    JudgedByEvents(Chat, req, decode, text);
    OneEnd(Chat, req, decode, ds);
    if |ds| > 0 {
      var front, d := ds[..|ds| - 1], ds[|ds| - 1];
      ChatFrontIs(req, decode, front);
      if GoesOn(Chat, req, decode, front) {
        WentOn(Chat, req, decode, front);
        var s := Events(Chat, req, decode, NEW_STREAM, front).next;
        ChatEventIs(req, decode, s, d);
        ChatEndsExactly(req, s, AllChoices(decode, front));
      }
    }
  }
}
