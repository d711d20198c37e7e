/**
  The verdict on a streamed answer: what each event does to the checker, and what it means
  for the whole text of a stream to be accepted.
 */
module StreamVerdict {
  // The main results say of each protocol what the events of an accepted text must have been,
  // from its bytes on: the framer of module EventStream dispatches events, their texts are
  // decoded by an arbitrary function, and the machine of the protocol judges them in order.

  import opened GoText
  import opened CompletionContract
  import opened StreamEvents
  import opened Ranges
  import EventStream
  import ChatStream
  import ResponsesStream
  import MessagesStream
  import JsonScanner
  import Machines

  datatype StreamState = StreamState(ledger: ChatStream.Ledger, tools: Tools, flags: MessagesStream.Flags, terminal: bool)

  const NEW_STREAM := StreamState(ChatStream.NO_LEDGER, NO_TOOLS, MessagesStream.Flags(false, false), false)

  type Stepped = Machines.Outcome<StreamState, ()>

  const DONE := "[DONE]"

  /** The type of an event: its own, or the name it was sent under. */
  function KindOf(e: StreamEvent, name: bytes): string {
    if e.kind == "" then name else e.kind
  }

  predicate ReportsFailure(op: Operation, e: StreamEvent, name: bytes) {
    (op != Chat && name != "" && e.kind != "" && name != e.kind)
    || KindOf(e, name) == "error" || e.failure || KindOf(e, name) == "response.failed" || KindOf(e, name) == "response.incomplete"
  }

  ghost function ChatEvent(req: Requirements, s: StreamState, e: StreamEvent): Stepped {
    match ChatStream.Choices(req, s.tools, e.choices)
    case Reject => Machines.Reject
    case Advance(t, _) =>
      match ChatStream.EnterAll(s.ledger, e.choices)
      case Reject => Machines.Reject
      case Advance(l, _) => Machines.Advance(s.(tools := t, ledger := l), [])
  }

  ghost function ResponsesEvent(req: Requirements, s: StreamState, kind: string, b: ResponsesBody): Stepped {
    if kind == ResponsesStream.COMPLETED then
      if ResponsesStream.MayComplete(req, s.tools, b) then Machines.Advance(s.(terminal := true), []) else Machines.Reject
    else
      match ResponsesStream.ToolStep(req, s.tools, ResponsesStream.Notice(kind, b))
      case Reject => Machines.Reject
      case Advance(t, _) => Machines.Advance(s.(tools := t), [])
  }

  ghost function MessagesEvent(req: Requirements, s: StreamState, kind: string, b: MessagesBody): Stepped {
    var n := MessagesStream.Notice(kind, b);
    if kind == MessagesStream.MESSAGE_STOP then
      if MessagesStream.MayStop(req, s.tools) && s.flags.started && s.flags.stopped
      then Machines.Advance(s.(terminal := true), []) else Machines.Reject
    else
      match MessagesStream.ToolStep(req, s.tools, n)
      case Reject => Machines.Reject
      case Advance(t, _) =>
        if MessagesStream.FlagsRefuse(s.flags, n) then Machines.Reject
        else Machines.Advance(s.(tools := t, flags := MessagesStream.FlagsAfter(s.flags, n)), [])
  }

  ghost function DecodedEvent(op: Operation, req: Requirements, s: StreamState, e: StreamEvent, name: bytes): Stepped {
    if ReportsFailure(op, e, name) then Machines.Reject
    else
      match op
      case Chat => ChatEvent(req, s, e)
      case Responses => ResponsesEvent(req, s, KindOf(e, name), e.responses)
      case Messages => MessagesEvent(req, s, KindOf(e, name), e.messages)
  }

  /** sseEvent, for an event with data. */
  ghost function EventStep(op: Operation, req: Requirements, decode: Decoder, s: StreamState, d: EventStream.Dispatch): Stepped {
    if s.terminal then Machines.Reject
    else if d.data == DONE then
      if op == Chat && ChatStream.MayEnd(req, s.tools, s.ledger) then Machines.Advance(s.(terminal := true), []) else Machines.Reject
    else if !JsonScanner.Accepts(d.data) then Machines.Reject
    else
      match decode(d.event, d.data)
      case None => Machines.Reject
      case Some(e) => DecodedEvent(op, req, s, e, d.event)
  }

  ghost function Eventer(op: Operation, req: Requirements, decode: Decoder): (StreamState, EventStream.Dispatch) -> Stepped {
    (s, d) => EventStep(op, req, decode, s, d)
  }

  ghost function Events(op: Operation, req: Requirements, decode: Decoder, s: StreamState, ds: seq<EventStream.Dispatch>): Stepped {
    Machines.Run(Eventer(op, req, decode), s, ds)
  }

  // ---- Indexes are natural ------------------------------------------------------------------

  lemma {:induction false} ChoicesKeepNative(req: Requirements, t: Tools, ds: seq<ChatChoice>)
    requires ChatStream.Choices(req, t, ds).Advance?
    ensures ChatStream.Choices(req, t, ds).next.native == t.native
  {
    hide ChatStream.Assemble, ChatStream.MayFinish;
    if |ds| > 0 { ChoicesKeepNative(req, t, ds[..|ds| - 1]); }
  }

  lemma BlocksNatural(req: Requirements, t: Tools, n: MessagesStream.Notice)
    requires NaturalKeys(t) && MessagesStream.ToolStep(req, t, n).Advance?
    ensures NaturalKeys(MessagesStream.ToolStep(req, t, n).next)
  {
    hide MessagesStream.MayStartTool, MessagesStream.MayStopTool, MessagesStream.DeltaFits, MayAppend;
  }

  lemma CallsNatural(req: Requirements, t: Tools, n: ResponsesStream.Notice)
    requires NaturalKeys(t) && ResponsesStream.ToolStep(req, t, n).Advance?
    ensures NaturalKeys(ResponsesStream.ToolStep(req, t, n).next)
  {
    hide ResponsesStream.Advanced, ResponsesStream.IdentityAgrees;
  }

  lemma EventNatural(op: Operation, req: Requirements, decode: Decoder, s: StreamState, d: EventStream.Dispatch)
    requires NaturalKeys(s.tools) && EventStep(op, req, decode, s, d).Advance?
    ensures NaturalKeys(EventStep(op, req, decode, s, d).next.tools)
  {
    hide ChatStream.Choices, ChatStream.EnterAll, ChatStream.MayEnd, ResponsesStream.ToolStep, ResponsesStream.MayComplete,
      MessagesStream.ToolStep, MessagesStream.MayStop, JsonScanner.Accepts, ReportsFailure;
    if d.data != DONE {
      var e := decode(d.event, d.data).value;
      match op {
        case Chat => ChoicesKeepNative(req, s.tools, e.choices);
        case Responses =>
          var n := ResponsesStream.Notice(KindOf(e, d.event), e.responses);
          if KindOf(e, d.event) != ResponsesStream.COMPLETED { CallsNatural(req, s.tools, n); }
        case Messages =>
          var n := MessagesStream.Notice(KindOf(e, d.event), e.messages);
          if KindOf(e, d.event) != MessagesStream.MESSAGE_STOP { BlocksNatural(req, s.tools, n); }
      }
    }
  }

  // ---- Bytes -----------------------------------------------------------------------------

  type State = (EventStream.Framer, StreamState)

  ghost function Bytes(op: Operation, req: Requirements, decode: Decoder): (State, char) -> Machines.Outcome<State, ()> {
    Machines.Pipe(EventStream.Step, Eventer(op, req, decode))
  }

  const NEW_STATE: State := (EventStream.OPEN, NEW_STREAM)

  /** Nothing is left over, and the stream came to its end. */
  predicate EndsWell(s: State) {
    TrimSpace(s.0.line) == "" && s.0.pending == EventStream.EMPTY && s.1.terminal
  }

  ghost predicate AcceptsStream(op: Operation, req: Requirements, decode: Decoder, text: bytes) {
    match Machines.Run(Bytes(op, req, decode), NEW_STATE, text)
    case Reject => false
    case Advance(s, _) => EndsWell(s)
  }

  /** The events of a text. */
  function Dispatched(text: bytes): seq<EventStream.Dispatch> {
    match EventStream.Frame(EventStream.OPEN, text)
    case Reject => []
    case Advance(_, ds) => ds
  }

  /** A stream is judged by its events. */
  lemma AcceptedEvents(op: Operation, req: Requirements, decode: Decoder, text: bytes)
    requires AcceptsStream(op, req, decode, text)
    ensures var r := Events(op, req, decode, NEW_STREAM, Dispatched(text)); r.Advance? && r.next.terminal
    ensures EventStream.Frame(EventStream.OPEN, text).Advance? && EventStream.Frame(EventStream.OPEN, text).next.pending == EventStream.EMPTY
  {
    hide EventStep;
    Machines.PipeIsFed(EventStream.Step, Eventer(op, req, decode), NEW_STATE, text);
  }

  /** Only the last event ends a stream. */
  lemma LastEnds(op: Operation, req: Requirements, decode: Decoder, ds: seq<EventStream.Dispatch>)
    requires Events(op, req, decode, NEW_STREAM, ds).Advance? && Events(op, req, decode, NEW_STREAM, ds).next.terminal
    ensures |ds| > 0
    ensures var r := Events(op, req, decode, NEW_STREAM, ds[..|ds| - 1]);
      r.Advance? && !r.next.terminal && EventStep(op, req, decode, r.next, ds[|ds| - 1]) .Advance?
      && EventStep(op, req, decode, r.next, ds[|ds| - 1]).next.terminal
  {
  }

  // ---- Decoded events --------------------------------------------------------------------------

  predicate Decodes(decode: Decoder, d: EventStream.Dispatch) {
    d.data != DONE && JsonScanner.Accepts(d.data) && decode(d.event, d.data).Some?
  }

  function Event(decode: Decoder, d: EventStream.Dispatch): StreamEvent
    requires decode(d.event, d.data).Some?
  {
    decode(d.event, d.data).value
  }

  predicate AllDecode(decode: Decoder, ds: seq<EventStream.Dispatch>) {
    forall k :: 0 <= k < |ds| ==> Decodes(decode, ds[k])
  }

  lemma AllDecodeFront(decode: Decoder, ds: seq<EventStream.Dispatch>)
    requires |ds| > 0
    ensures AllDecode(decode, ds) <==> AllDecode(decode, ds[..|ds| - 1]) && Decodes(decode, ds[|ds| - 1])
  {
    assert forall k :: 0 <= k < |ds| - 1 ==> ds[..|ds| - 1][k] == ds[k];
  }

  // ---- Chat ----------------------------------------------------------------------------------------

  /** Every choice of every chunk, in order. */
  function AllChoices(decode: Decoder, ds: seq<EventStream.Dispatch>): seq<ChatChoice>
    requires AllDecode(decode, ds)
  {
    if |ds| == 0 then []
    else
      AllDecodeFront(decode, ds);
      AllChoices(decode, ds[..|ds| - 1]) + Event(decode, ds[|ds| - 1]).choices
  }

  lemma ChatStep(req: Requirements, decode: Decoder, s: StreamState, d: EventStream.Dispatch)
    requires EventStep(Chat, req, decode, s, d).Advance? && !EventStep(Chat, req, decode, s, d).next.terminal
    ensures Decodes(decode, d) && !s.terminal
    ensures var t, l := ChatStream.Choices(req, s.tools, Event(decode, d).choices), ChatStream.EnterAll(s.ledger, Event(decode, d).choices);
      var r := EventStep(Chat, req, decode, s, d).next;
      t.Advance? && l.Advance? && r.tools == t.next && r.ledger == l.next
  {
    hide ChatStream.Choices, ChatStream.EnterAll, ChatStream.MayEnd, JsonScanner.Accepts;
  }

  /** Before the end, both ledgers are those of all the choices so far. */
  lemma {:induction false} ChatHistory(req: Requirements, decode: Decoder, ds: seq<EventStream.Dispatch>)
    requires Events(Chat, req, decode, NEW_STREAM, ds).Advance? && !Events(Chat, req, decode, NEW_STREAM, ds).next.terminal
    ensures AllDecode(decode, ds)
    ensures var t, l := ChatStream.Choices(req, NO_TOOLS, AllChoices(decode, ds)), ChatStream.EnterAll(ChatStream.NO_LEDGER, AllChoices(decode, ds));
      var s := Events(Chat, req, decode, NEW_STREAM, ds).next;
      t.Advance? && l.Advance? && s.tools == t.next && s.ledger == l.next
  {
    if |ds| > 0 {
      hide EventStep, ChatStream.ChoiceStep, ChatStream.Enter;
      var front, d := ds[..|ds| - 1], ds[|ds| - 1];
      var s := Events(Chat, req, decode, NEW_STREAM, front).next;
      ChatStep(req, decode, s, d);
      ChatHistory(req, decode, front);
      AllDecodeFront(decode, ds);
      var hs, more := AllChoices(decode, front), Event(decode, d).choices;
      Machines.RunAppend(ChatStream.ChoiceStepper(req), NO_TOOLS, hs, more);
      Machines.RunAppend(ChatStream.Enter, ChatStream.NO_LEDGER, hs, more);
    }
  }

  /** After every event, the two ledgers agree. */
  lemma ChatLedgersAgree(req: Requirements, decode: Decoder, ds: seq<EventStream.Dispatch>)
    requires Events(Chat, req, decode, NEW_STREAM, ds).Advance? && !Events(Chat, req, decode, NEW_STREAM, ds).next.terminal
    ensures var s := Events(Chat, req, decode, NEW_STREAM, ds).next;
      s.tools.choices.Keys == s.ledger.seen && s.ledger.choices == |s.ledger.seen| && s.ledger.finishedChoices == |s.ledger.finished|
      && forall i :: i in s.ledger.seen ==> (s.tools.choices[i].finished <==> i in s.ledger.finished)
  {
    ChatHistory(req, decode, ds);
    hide Events, ChatStream.Choices, ChatStream.EnterAll, AllChoices, ChatStream.IndexesOf, ChatStream.EndedIn;
    ChatStream.LedgersAgree(req, AllChoices(decode, ds));
  }

  /** An accepted Chat stream is chunks and then [DONE]; the chunks tell the whole story of
      every choice.  Every call is whole, and has an identity of its own unless a delta
      declared the type "legacy" for it. */
  lemma AcceptedChat(req: Requirements, decode: Decoder, text: bytes)
    requires AcceptsStream(Chat, req, decode, text)
    ensures var ds := Dispatched(text);
      |ds| > 0 && ds[|ds| - 1].data == DONE && AllDecode(decode, ds[..|ds| - 1])
      && var hs := AllChoices(decode, ds[..|ds| - 1]);
        ChatStream.StoriesComplete(req, hs) && ChatStream.Choices(req, NO_TOOLS, hs).Advance?
        && var t := ChatStream.Choices(req, NO_TOOLS, hs).next;
          ChatStream.CallsWhole(req, t) && ChatStream.OnlyDeclaredEscape(t, hs)
          && (ChatStream.NoneDeclared(hs) ==> ChatStream.AllIdentified(t))
  {
    AcceptedEvents(Chat, req, decode, text);
    var ds := Dispatched(text);
    LastEnds(Chat, req, decode, ds);
    var s := Events(Chat, req, decode, NEW_STREAM, ds[..|ds| - 1]).next;
    ChatEnds(req, decode, s, ds[|ds| - 1]);
    ChatHistory(req, decode, ds[..|ds| - 1]);
    hide Events, ChatStream.Choices, ChatStream.EnterAll, AllChoices;
    ChatStream.EndedStream(req, AllChoices(decode, ds[..|ds| - 1]));
    ChatStream.CallsAreDistinct(req, AllChoices(decode, ds[..|ds| - 1]));
    ChatStream.CallsAreIdentified(req, AllChoices(decode, ds[..|ds| - 1]));
  }

  lemma ChatEnds(req: Requirements, decode: Decoder, s: StreamState, d: EventStream.Dispatch)
    requires !s.terminal && EventStep(Chat, req, decode, s, d).Advance? && EventStep(Chat, req, decode, s, d).next.terminal
    ensures d.data == DONE && ChatStream.MayEnd(req, s.tools, s.ledger)
  {
    hide ChatStream.Choices, ChatStream.EnterAll, ChatStream.MayEnd, JsonScanner.Accepts;
  }

  // ---- Responses --------------------------------------------------------------------------------------

  function ResponsesNotices(decode: Decoder, ds: seq<EventStream.Dispatch>): seq<ResponsesStream.Notice>
    requires AllDecode(decode, ds)
  {
    if |ds| == 0 then []
    else
      AllDecodeFront(decode, ds);
      var e := Event(decode, ds[|ds| - 1]);
      ResponsesNotices(decode, ds[..|ds| - 1]) + [ResponsesStream.Notice(KindOf(e, ds[|ds| - 1].event), e.responses)]
  }

  lemma ResponsesStep(req: Requirements, decode: Decoder, s: StreamState, d: EventStream.Dispatch)
    requires EventStep(Responses, req, decode, s, d).Advance?
    ensures Decodes(decode, d) && !s.terminal
    ensures var e, r := Event(decode, d), EventStep(Responses, req, decode, s, d).next;
      if r.terminal then KindOf(e, d.event) == ResponsesStream.COMPLETED && ResponsesStream.MayComplete(req, s.tools, e.responses)
      else var t := ResponsesStream.ToolStep(req, s.tools, ResponsesStream.Notice(KindOf(e, d.event), e.responses));
        t.Advance? && r.tools == t.next
  {
    hide ResponsesStream.ToolStep, ResponsesStream.MayComplete, ChatStream.MayEnd, JsonScanner.Accepts;
  }

  lemma {:induction false} ResponsesHistory(req: Requirements, decode: Decoder, ds: seq<EventStream.Dispatch>)
    requires Events(Responses, req, decode, NEW_STREAM, ds).Advance? && !Events(Responses, req, decode, NEW_STREAM, ds).next.terminal
    ensures AllDecode(decode, ds)
    ensures var t := ResponsesStream.Follow(req, NO_TOOLS, ResponsesNotices(decode, ds));
      t.Advance? && Events(Responses, req, decode, NEW_STREAM, ds).next.tools == t.next
  {
    if |ds| > 0 {
      hide EventStep, ResponsesStream.ToolStep;
      var front, d := ds[..|ds| - 1], ds[|ds| - 1];
      ResponsesStep(req, decode, Events(Responses, req, decode, NEW_STREAM, front).next, d);
      ResponsesHistory(req, decode, front);
      AllDecodeFront(decode, ds);
      var n := ResponsesStream.Notice(KindOf(Event(decode, d), d.event), Event(decode, d).responses);
      Machines.RunAppend(ResponsesStream.ToolStepper(req), NO_TOOLS, ResponsesNotices(decode, front), [n]);
      Machines.RunOne(ResponsesStream.ToolStepper(req), ResponsesStream.Follow(req, NO_TOOLS, ResponsesNotices(decode, front)).next, n);
    }
  }

  /** An accepted Responses stream ends with the completed response, whose calls are exactly
      the ones streamed, each from its announcement to its end. */
  lemma AcceptedResponses(req: Requirements, decode: Decoder, text: bytes)
    requires AcceptsStream(Responses, req, decode, text)
    ensures var ds := Dispatched(text);
      |ds| > 0 && AllDecode(decode, ds)
      && var front, e := ResponsesNotices(decode, ds[..|ds| - 1]), Event(decode, ds[|ds| - 1]);
        KindOf(e, ds[|ds| - 1].event) == ResponsesStream.COMPLETED
        && AcceptsBody(Responses, req, false, e.responses.response) && e.responses.finalOutput.Some?
        && ResponsesStream.CallsCorrespond(front, e.responses.finalOutput.value)
  {
    AcceptedEvents(Responses, req, decode, text);
    var ds := Dispatched(text);
    LastEnds(Responses, req, decode, ds);
    var front, d := ds[..|ds| - 1], ds[|ds| - 1];
    var s := Events(Responses, req, decode, NEW_STREAM, front).next;
    ResponsesStep(req, decode, s, d);
    ResponsesHistory(req, decode, front);
    AllDecodeFront(decode, ds);
    hide Events, ResponsesStream.Follow, ResponsesNotices, EventStep;
    ResponsesStream.CompletedStream(req, ResponsesNotices(decode, front), Event(decode, d).responses);
  }

  // ---- Messages -----------------------------------------------------------------------------------------

  function MessagesNotices(decode: Decoder, ds: seq<EventStream.Dispatch>): seq<MessagesStream.Notice>
    requires AllDecode(decode, ds)
  {
    if |ds| == 0 then []
    else
      AllDecodeFront(decode, ds);
      var e := Event(decode, ds[|ds| - 1]);
      MessagesNotices(decode, ds[..|ds| - 1]) + [MessagesStream.Notice(KindOf(e, ds[|ds| - 1].event), e.messages)]
  }

  lemma MessagesStep(req: Requirements, decode: Decoder, s: StreamState, d: EventStream.Dispatch)
    requires EventStep(Messages, req, decode, s, d).Advance?
    ensures Decodes(decode, d) && !s.terminal
    ensures var e, r := Event(decode, d), EventStep(Messages, req, decode, s, d).next;
      if r.terminal then KindOf(e, d.event) == MessagesStream.MESSAGE_STOP && MessagesStream.MayStop(req, s.tools)
      else var t := MessagesStream.ToolStep(req, s.tools, MessagesStream.Notice(KindOf(e, d.event), e.messages));
        t.Advance? && r.tools == t.next
  {
    hide MessagesStream.ToolStep, MessagesStream.MayStop, ChatStream.MayEnd, JsonScanner.Accepts;
  }

  lemma {:induction false} MessagesHistory(req: Requirements, decode: Decoder, ds: seq<EventStream.Dispatch>)
    requires Events(Messages, req, decode, NEW_STREAM, ds).Advance? && !Events(Messages, req, decode, NEW_STREAM, ds).next.terminal
    ensures AllDecode(decode, ds)
    ensures var t := MessagesStream.Follow(req, NO_TOOLS, MessagesNotices(decode, ds));
      t.Advance? && Events(Messages, req, decode, NEW_STREAM, ds).next.tools == t.next
  {
    if |ds| > 0 {
      hide EventStep, MessagesStream.ToolStep;
      var front, d := ds[..|ds| - 1], ds[|ds| - 1];
      MessagesStep(req, decode, Events(Messages, req, decode, NEW_STREAM, front).next, d);
      MessagesHistory(req, decode, front);
      AllDecodeFront(decode, ds);
      var n := MessagesStream.Notice(KindOf(Event(decode, d), d.event), Event(decode, d).messages);
      Machines.RunAppend(MessagesStream.ToolStepper(req), NO_TOOLS, MessagesNotices(decode, front), [n]);
      Machines.RunOne(MessagesStream.ToolStepper(req), MessagesStream.Follow(req, NO_TOOLS, MessagesNotices(decode, front)).next, n);
    }
  }

  /** An accepted Messages stream ends with message_stop after whole content blocks, whose
      tools agree with the last stop reason. */
  lemma AcceptedMessages(req: Requirements, decode: Decoder, text: bytes)
    requires AcceptsStream(Messages, req, decode, text)
    ensures var ds := Dispatched(text);
      |ds| > 0 && AllDecode(decode, ds)
      && var front := MessagesNotices(decode, ds[..|ds| - 1]);
        KindOf(Event(decode, ds[|ds| - 1]), ds[|ds| - 1].event) == MessagesStream.MESSAGE_STOP
        && MessagesStream.Follow(req, NO_TOOLS, front).Advance?
        && MessagesStream.MessageWhole(req, MessagesStream.Follow(req, NO_TOOLS, front).next, front)
  {
    AcceptedEvents(Messages, req, decode, text);
    var ds := Dispatched(text);
    LastEnds(Messages, req, decode, ds);
    var front, d := ds[..|ds| - 1], ds[|ds| - 1];
    var s := Events(Messages, req, decode, NEW_STREAM, front).next;
    MessagesStep(req, decode, s, d);
    MessagesHistory(req, decode, front);
    AllDecodeFront(decode, ds);
    hide Events, MessagesStream.Follow, MessagesNotices, EventStep;
    MessagesStream.StoppedStream(req, MessagesNotices(decode, front));
  }

  /** However a stream is cut into pieces, its verdict is that of the whole. */
  lemma PiecesMakeNoDifference(op: Operation, req: Requirements, decode: Decoder, pieces: seq<bytes>)
    ensures AcceptsStream(op, req, decode, Machines.Concat(pieces))
            <==> var r := Machines.RunAll(Bytes(op, req, decode), NEW_STATE, pieces); r.Advance? && EndsWell(r.next)
  {
    hide EndsWell, Bytes;
    Machines.RunAllIsRun(Bytes(op, req, decode), NEW_STATE, pieces);
  }
}
