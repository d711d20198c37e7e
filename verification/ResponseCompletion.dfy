/**
  The completion checker as one object: it is fed whatever pieces a body arrives in, and
  says at the end whether the answer was complete.  The methods loop where the gateway
  does; each is proved against the functions that the theorems of this project are about.
 */
module ResponseCompletion {
  import opened GoText
  import opened CompletionContract
  import opened StreamEvents
  import opened StreamVerdict
  import opened JsonCompletion
  import opened Compact
  import EventStream
  import ChatStream
  import ResponsesStream
  import MessagesStream
  import JsonScanner
  import Machines
  import Ranges

  /** validToolArguments, by the checker itself. */
  method ValidToolArguments(value: bytes) returns (ok: bool)
    ensures ok == ValidArguments(value)
  {
    hide TrimSpace, JsonScanner.FinishedAtEnd, CheckText, JsonScanner.Accepts, Sound;
    var raw := TrimSpace(value);
    if |raw| == 0 || raw[0] != '{' || |raw| > JsonScanner.MAX_ARGUMENTS { return false; }
    ok := CompleteObject(raw);
  }

  /** The bare syntax check. */
  method CompleteObject(text: bytes) returns (ok: bool)
    ensures ok == JsonScanner.Accepts(text)
  {
    hide JsonScanner.FinishedAtEnd, CheckText, JsonScanner.Accepts, Sound;
    var req := Requirements(0, Unspecified, "", None, 0);
    var check := new JsonCompletion(None, req);
    SyntaxCheck(req, text);
    ok := check.Feed(text);
    if ok { ok := check.Finish(); }
  }

  /** A buffered body, checked in one piece. */
  method CompleteBody(op: Operation, req: Requirements, countTokens: bool, text: bytes) returns (ok: bool)
    ensures ok == AcceptsBody(op, req, countTokens, text)
  {
    hide JsonScanner.FinishedAtEnd, CheckText, AcceptsBody, Sound, Satisfied;
    var check := new JsonCompletion(Some(op), req);
    BodyCheck(op, req, countTokens, text);
    ok := check.Feed(text);
    if ok { ok := check.Finish(); }
    if ok { ok := Satisfied(op, req, countTokens, check.Kept()); }
  }

  /** The calls of a choice, in whatever order the map yields them. */
  method FinishCalls(req: Requirements, calls: map<int, StreamCall>, before: set<string>) returns (ok: bool, ids: set<string>)
    ensures ok <==> ChatStream.CallsFinish(req, calls, before)
    ensures ok ==> ids == before + ChatStream.ModernIds(calls)
  {
    hide ValidCall;
    ids := before;
    var rest: set<int> := calls.Keys;
    ghost var done: set<int> := {};
    while rest != {}
      invariant rest + done == calls.Keys && rest !! done
      invariant forall i :: i in done ==> ChatStream.CallFinishes(req, calls[i], before)
      invariant forall i, j :: i in done && j in done && i != j && calls[i].kind != "legacy" && calls[j].kind != "legacy" ==> calls[i].id != calls[j].id
      invariant ids == before + set i | i in done && calls[i].kind != "legacy" :: calls[i].id
      decreases rest
    {
      Ranges.SomeIndex(rest);
      var i :| i in rest;
      var call := calls[i];
      rest := rest - {i};
      if call.kind != "legacy" {
        if call.id in ids { return false, ids; }
        ids := ids + {call.id};
      }
      if !ChatStream.CallFinishes(req, call, before) { return false, ids; }
      done := done + {i};
    }
    assert done == calls.Keys;
    return true, ids;
  }

  class ResponseCompletion {
    const operation: Operation
    const requirements: Requirements
    const countTokens: bool
    const stream: bool
    /** json.Unmarshal of an event, and json.Compact of two argument texts. */
    const decode: Decoder
    const same: (bytes, bytes) -> bool
    const json: JsonCompletion
    var line: bytes
    var data: bytes
    var event: bytes
    var ledger: ChatStream.Ledger
    var tools: Tools
    var started: bool
    var stopped: bool
    var terminal: bool
    var err: bool

    constructor (operation: Operation, requirements: Requirements, countTokens: bool, stream: bool, requestedStream: bool,
                 decode: Decoder, same: (bytes, bytes) -> bool)
      requires forall a, b :: same(a, b) <==> SameArguments(a, b)
      ensures this.operation == operation && this.requirements == requirements && this.countTokens == countTokens
      ensures this.stream == stream && this.decode == decode && Trusted()
      ensures err == (requestedStream != stream) && State() == NEW_STATE && json.State() == NEW
      ensures fresh(json) && json.operation == Some(operation) && json.requirements == requirements
    {
      this.operation, this.requirements, this.countTokens, this.stream := operation, requirements, countTokens, stream;
      this.decode, this.same := decode, same;
      json := new JsonCompletion(Some(operation), requirements);
      line, data, event := "", "", "";
      ledger, tools := ChatStream.NO_LEDGER, NO_TOOLS;
      started, stopped, terminal := false, false, false;
      err := requestedStream != stream;
    }

    ghost predicate Trusted() {
      forall a, b :: same(a, b) <==> SameArguments(a, b)
    }

    function Framer(): EventStream.Framer
      reads `line, `data, `event
    {
      EventStream.Framer(line, EventStream.Pending(data, event))
    }

    function Streamed(): StreamState
      reads `ledger, `tools, `started, `stopped, `terminal
    {
      StreamState(ledger, tools, MessagesStream.Flags(started, stopped), terminal)
    }

    function State(): StreamVerdict.State
      reads `line, `data, `event, `ledger, `tools, `started, `stopped, `terminal
    {
      (Framer(), Streamed())
    }

    /** The checker accepted, and is in the state that was to be reached. */
    predicate Takes(ok: bool, r: StreamVerdict.Stepped)
      reads `ledger, `tools, `started, `stopped, `terminal
    {
      ok == r.Advance? && (ok ==> r.next == Streamed())
    }

    predicate Uses(ok: bool, r: ChatStream.Stepped)
      reads `tools
    {
      ok == r.Advance? && (ok ==> r.next == tools)
    }

    // ---- Chat ------------------------------------------------------------------------------

    /** The deltas of one choice, one by one. */
    method ApplyDeltas(d: ChatChoice, start: ChatStream.Work) returns (ok: bool, w: ChatStream.Work)
      ensures var r := Machines.Run(ChatStream.DeltaStepper(requirements), start, d.calls);
        ok == r.Advance? && (ok ==> r.next == w)
    {
      hide ChatStream.DeltaStep;
      w := start;
      var i := 0;
      while i < |d.calls|
        invariant 0 <= i <= |d.calls|
        invariant var r := Machines.Run(ChatStream.DeltaStepper(requirements), start, d.calls[..i]); r.Advance? && r.next == w
      {
        Machines.RunStep(ChatStream.DeltaStepper(requirements), start, d.calls, i);
        match ChatStream.DeltaStep(requirements, w, d.calls[i]) {
          case Reject =>
            Machines.RunRejects(ChatStream.DeltaStepper(requirements), start, d.calls, i + 1);
            return false, w;
          case Advance(w1, _) => w := w1;
        }
        i := i + 1;
      }
      assert d.calls[..i] == d.calls;
      ok := true;
    }

    method AssembleChoice(d: ChatChoice) returns (ok: bool, w: ChatStream.Work)
      ensures var r := ChatStream.Assemble(requirements, tools, d); ok == r.Advance? && (ok ==> r.next == w)
    {
      hide ChatStream.DeltaStepper, ChatStream.IndexGood, ChatStream.LegacyStep;
      var current := ChatStream.ChoiceAt(tools, ChatStream.IndexOf(d));
      w := ChatStream.Work(ChatStream.Payload(current, d), tools.callCount, tools.argumentBytes);
      if !ChatStream.IndexGood(requirements, d) || current.finished || d.content.NotText? || d.refusal.NotText? { return false, w; }
      ok, w := ApplyDeltas(d, w);
      if ok && d.legacy.Some? {
        match ChatStream.LegacyStep(w, d.legacy.value) {
          case Reject => ok := false;
          case Advance(w1, _) => w := w1;
        }
      }
    }

    method ChatChoiceChunk(d: ChatChoice) returns (ok: bool)
      modifies `tools
      ensures Uses(ok, ChatStream.ChoiceStep(requirements, old(tools), d))
    {
      hide ChatStream.Assemble, ChatStream.IndexOf, ChatStream.CallsFinish, ChatStream.ModernIds;
      var w;
      ok, w := AssembleChoice(d);
      if !ok { return; }
      var index, before := ChatStream.IndexOf(d), tools.ids;
      tools := tools.(callCount := w.callCount, argumentBytes := w.argumentBytes);
      if !ChatStream.Ends(d) {
        tools := tools.(choices := tools.choices[index := w.choice]);
        return;
      }
      var reason, calls := d.finish.value, w.choice.calls;
      var ids := before;
      if |calls| == 0 {
        if requirements.toolMode == RequiredTools || ChatStream.ToolReason(reason) { return false; }
        if requirements.expectedChoices > 0 && !w.choice.payload { return false; }
        assert ChatStream.ModernIds(calls) == {} by { NoCallsNoIds(calls); }
      } else {
        if !ChatStream.ToolReason(reason) { return false; }
        ok, ids := FinishCalls(requirements, calls, before);
        if !ok { return; }
      }
      tools := tools.(choices := tools.choices[index := w.choice.(finished := true)], ids := ids);
    }

    /** observeChatToolStream. */
    method ObserveChatTools(ds: seq<ChatChoice>) returns (ok: bool)
      modifies `tools
      ensures Uses(ok, ChatStream.Choices(requirements, old(tools), ds))
    {
      hide ChatStream.ChoiceStep;
      var i := 0;
      while i < |ds|
        invariant 0 <= i <= |ds|
        invariant Uses(true, ChatStream.Choices(requirements, old(tools), ds[..i]))
      {
        Machines.RunStep(ChatStream.ChoiceStepper(requirements), old(tools), ds, i);
        ok := ChatChoiceChunk(ds[i]);
        i := i + 1;
        if !ok {
          Machines.RunRejects(ChatStream.ChoiceStepper(requirements), old(tools), ds, i);
          return;
        }
      }
      assert ds[..i] == ds;
      ok := true;
    }

    /** The other ledger of choices. */
    method EnterChoices(ds: seq<ChatChoice>) returns (ok: bool)
      modifies `ledger
      ensures var r := ChatStream.EnterAll(old(ledger), ds); ok == r.Advance? && (ok ==> r.next == ledger)
    {
      hide ChatStream.IndexOf, ChatStream.Ends;
      var i := 0;
      while i < |ds|
        invariant 0 <= i <= |ds|
        invariant var r := ChatStream.EnterAll(old(ledger), ds[..i]); r.Advance? && r.next == ledger
      {
        Machines.RunStep(ChatStream.Enter, old(ledger), ds, i);
        var n := ChatStream.IndexOf(ds[i]);
        if n < 0 || n >= MAX_CHOICES {
          Machines.RunRejects(ChatStream.Enter, old(ledger), ds, i + 1);
          return false;
        }
        if n !in ledger.seen {
          ledger := ledger.(seen := ledger.seen + {n}, choices := ledger.choices + 1);
        }
        if ChatStream.Ends(ds[i]) && n !in ledger.finished {
          ledger := ledger.(finished := ledger.finished + {n}, finishedChoices := ledger.finishedChoices + 1);
        }
        i := i + 1;
      }
      assert ds[..i] == ds;
      ok := true;
    }

    // ---- Responses --------------------------------------------------------------------------

    method ArgumentsMatch(call: StreamCall, arguments: bytes) returns (ok: bool)
      requires Trusted()
      ensures ok == ResponsesStream.ArgumentsMatch(call, arguments)
    {
      ok := ValidToolArguments(arguments);
      if ok && call.deltas { ok := same(call.args, arguments); }
    }

    method AdvanceCall(call: StreamCall, n: ResponsesStream.Notice) returns (p: ResponsesStream.Progress)
      requires Trusted()
      ensures p == ResponsesStream.Advanced(requirements, call, tools.argumentBytes, n)
    {
      hide AcceptsTool, ResponsesStream.ArgumentsMatch, ResponsesStream.Append;
      if n.kind == ResponsesStream.ADDED {
        if call.started || call.id == "" || call.callId == "" || !AcceptsTool(requirements, call.name) { return ResponsesStream.Refused; }
        return ResponsesStream.Now(call.(started := true), 0);
      }
      if !call.started { return ResponsesStream.Refused; }
      if n.kind == ResponsesStream.DELTA {
        if !n.body.delta.Piece? { return ResponsesStream.Refused; }
        return ResponsesStream.Append(call, tools.argumentBytes, n.body.delta.text);
      }
      var item := ResponsesStream.ItemOf(n.body);
      var arguments := item.arguments;
      if n.body.arguments.Some? { arguments := n.body.arguments.value; }
      var consistent := ArgumentsMatch(call, arguments);
      if !consistent { return ResponsesStream.Refused; }
      if n.kind == ResponsesStream.ARGUMENTS_DONE {
        if call.argumentsDone || call.itemDone { return ResponsesStream.Refused; }
        p := ResponsesStream.Now(call, 0);
        if !call.deltas { p := ResponsesStream.Append(call, tools.argumentBytes, arguments); }
        if p.Now? { p := p.(call := p.call.(argumentsDone := true)); }
        return;
      }
      if !call.argumentsDone || call.itemDone || item.id == "" || item.callId == "" || item.name == "" { return ResponsesStream.Refused; }
      return ResponsesStream.Now(call.(itemDone := true, done := true), 0);
    }

    /** observeResponsesToolStream, before the final response. */
    method ObserveResponsesTools(n: ResponsesStream.Notice) returns (ok: bool)
      requires Trusted()
      modifies `tools
      ensures Uses(ok, ResponsesStream.ToolStep(requirements, old(tools), n))
    {
      hide ResponsesStream.Advanced, ResponsesStream.IdentityAgrees, ResponsesStream.Identified, ResponsesStream.MayUse;
      if !ResponsesStream.IsToolKind(n.kind) { return true; }
      if n.body.index.None? || n.body.item.BadItem? { return false; }
      if !ResponsesStream.Concerns(n) { return true; }
      var index, item := n.body.index.value, ResponsesStream.ItemOf(n.body);
      if !ResponsesStream.MayUse(requirements, tools, index) { return false; }
      var call := CallAt(tools.native, index);
      if !ResponsesStream.IdentityAgrees(call, item, n.body.itemId) { return false; }
      var p := AdvanceCall(ResponsesStream.Identified(call, item, n.body.itemId), n);
      if p.Refused? { return false; }
      tools := tools.(native := tools.native[index := p.call], callCount := CallsAfter(tools.native, index, tools.callCount),
                      argumentBytes := tools.argumentBytes + p.more);
      return true;
    }

    method SameCall(call: StreamCall, item: OutputItem) returns (ok: bool)
      requires Trusted()
      ensures ok == ResponsesStream.SameCall(call, item)
    {
      ok := item.kind == "function_call" && call.id == item.id && call.name == item.name && call.callId == item.callId
            && same(call.args, item.arguments);
    }

    /** Every call of the final output was streamed to its end, and the other way round. */
    method OutputMatches(output: seq<OutputItem>) returns (ok: bool)
      requires Trusted() && NaturalKeys(tools)
      ensures ok == ResponsesStream.OutputMatches(tools, output)
    {
      hide SameArguments, ResponsesStream.SameCall;
      var i := 0;
      while i < |output|
        invariant 0 <= i <= |output|
        invariant forall j :: 0 <= j < i && output[j].kind == "function_call" ==> j in tools.native && tools.native[j].done
      {
        if output[i].kind == "function_call" && (i !in tools.native || !tools.native[i].done) { return false; }
        i := i + 1;
      }
      var rest: set<int> := tools.native.Keys;
      ghost var done: set<int> := {};
      while rest != {}
        invariant rest + done == tools.native.Keys && rest !! done
        invariant forall j :: j in done ==> j < |output| && tools.native[j].done && ResponsesStream.SameCall(tools.native[j], output[j])
        decreases rest
      {
        Ranges.SomeIndex(rest);
        var j :| j in rest;
        rest := rest - {j};
        if j >= |output| || !tools.native[j].done { return false; }
        var agree := SameCall(tools.native[j], output[j]);
        if !agree { return false; }
        done := done + {j};
      }
      assert done == tools.native.Keys;
      return true;
    }

    // ---- Messages ----------------------------------------------------------------------------

    method StartBlock(index: int, b: MessagesBody) returns (ok: bool)
      modifies `tools
      ensures Uses(ok, MessagesStream.StartBlock(requirements, old(tools), index, b))
    {
      hide AcceptsTool, ValidArguments, MessagesStream.NewBlock;
      if index in tools.native || !CallAllowed(tools.native, index, tools.callCount) { return false; }
      if |b.blockId| > MAX_IDENTITY || |b.blockName| > MAX_IDENTITY { return false; }
      var call, before := MessagesStream.NewBlock(b), tools;
      if b.blockKind == MessagesStream.TOOL_USE {
        if requirements.maxToolCalls > 0 && |tools.ids| >= requirements.maxToolCalls { return false; }
        if b.blockId in tools.ids { return false; }
        var whole := ValidToolArguments(b.input);
        if !AcceptsTool(requirements, b.blockName) || b.blockId == "" || !whole { return false; }
        if tools.argumentBytes + |b.input| > JsonScanner.MAX_ARGUMENTS { return false; }
        tools := tools.(ids := tools.ids + {b.blockId}, argumentBytes := tools.argumentBytes + |b.input|);
        call := call.(initial := b.input, args := b.input);
      }
      tools := tools.(native := before.native[index := call], callCount := before.callCount + 1);
      return true;
    }

    method GrowBlock(index: int, d: BlockDelta) returns (ok: bool)
      requires index in tools.native
      modifies `tools
      ensures Uses(ok, MessagesStream.GrowBlock(old(tools), index, d))
    {
      var call := tools.native[index];
      if !MessagesStream.DeltaFits(call, d) { return false; }
      if d.kind != "input_json_delta" { return true; }
      if !MayAppend(call, tools.argumentBytes, d.partial.value) { return false; }
      tools := tools.(native := tools.native[index := Appended(call, d.partial.value)],
                      argumentBytes := tools.argumentBytes + |d.partial.value|);
      return true;
    }

    method StopBlock(index: int) returns (ok: bool)
      requires Trusted() && index in tools.native
      modifies `tools
      ensures Uses(ok, MessagesStream.StopBlock(requirements, old(tools), index))
    {
      hide AcceptsTool, ValidArguments, TrimSpace;
      var call := tools.native[index];
      if call.kind == MessagesStream.TOOL_USE {
        var whole := ValidToolArguments(call.args);
        if call.id == "" || call.name == "" || !AcceptsTool(requirements, call.name) || !whole { return false; }
        if call.deltas && TrimSpace(call.initial) != "{}" && !same(call.initial, call.args) { return false; }
        tools := tools.(tools := tools.tools + 1);
      }
      tools := tools.(native := tools.native[index := call.(done := true)]);
      return true;
    }

    /** observeMessagesToolStream, except for message_stop. */
    method ObserveMessagesTools(n: MessagesStream.Notice) returns (ok: bool)
      requires Trusted()
      modifies `tools
      ensures Uses(ok, MessagesStream.ToolStep(requirements, old(tools), n))
    {
      hide MessagesStream.StartBlock, MessagesStream.GrowBlock, MessagesStream.StopBlock;
      if n.kind == MessagesStream.MESSAGE_DELTA {
        if n.body.delta.stopReason != "" { tools := tools.(stopReason := n.body.delta.stopReason); }
        return true;
      }
      if !MessagesStream.IsBlockKind(n.kind) { return true; }
      if n.body.index.None? { return false; }
      var index := n.body.index.value;
      if n.kind == MessagesStream.START {
        ok := StartBlock(index, n.body);
        return;
      }
      if index !in tools.native || tools.native[index].done { return false; }
      if n.kind == MessagesStream.DELTA {
        ok := GrowBlock(index, n.body.delta);
      } else {
        ok := StopBlock(index);
      }
    }

    /** message_stop: every block has stopped, and the tools agree with the stop reason. */
    method MayStop() returns (ok: bool)
      ensures ok == MessagesStream.MayStop(requirements, tools)
    {
      var rest: set<int> := tools.native.Keys;
      ghost var done: set<int> := {};
      while rest != {}
        invariant rest + done == tools.native.Keys && rest !! done
        invariant forall i :: i in done ==> tools.native[i].done
        decreases rest
      {
        Ranges.SomeIndex(rest);
        var i :| i in rest;
        rest := rest - {i};
        if !tools.native[i].done { return false; }
        done := done + {i};
      }
      assert done == tools.native.Keys;
      var stoppedForTools := tools.stopReason == MessagesStream.TOOL_USE;
      return !((requirements.toolMode == RequiredTools && tools.tools == 0) || (stoppedForTools && tools.tools == 0)
               || (tools.tools > 0 && !stoppedForTools));
    }

    // ---- Events --------------------------------------------------------------------------------

    method ChatEvent(e: StreamEvent) returns (ok: bool)
      modifies `tools, `ledger
      ensures Takes(ok, StreamVerdict.ChatEvent(requirements, old(Streamed()), e))
    {
      hide ChatStream.Choices, ChatStream.EnterAll;
      ok := ObserveChatTools(e.choices);
      if ok { ok := EnterChoices(e.choices); }
    }

    method ResponsesEvent(kind: string, b: ResponsesBody) returns (ok: bool)
      requires Trusted() && NaturalKeys(tools)
      modifies `tools, `terminal
      ensures Takes(ok, StreamVerdict.ResponsesEvent(requirements, old(Streamed()), kind, b))
    {
      hide ResponsesStream.ToolStep, ResponsesStream.OutputMatches, AcceptsBody, ResponsesStream.ReportsCompletion;
      if kind != ResponsesStream.COMPLETED {
        ok := ObserveResponsesTools(ResponsesStream.Notice(kind, b));
        return;
      }
      ok := CompleteBody(Responses, requirements, false, b.response);
      if !ok || b.finalOutput.None? { return false; }
      ok := OutputMatches(b.finalOutput.value);
      if !ok || !ResponsesStream.ReportsCompletion(b) { return false; }
      terminal := true;
    }

    method MessagesEvent(kind: string, b: MessagesBody) returns (ok: bool)
      requires Trusted()
      modifies `tools, `terminal, `started, `stopped
      ensures Takes(ok, StreamVerdict.MessagesEvent(requirements, old(Streamed()), kind, b))
    {
      hide MessagesStream.ToolStep, MessagesStream.MayStop, StartsWithBracket;
      if kind == MessagesStream.MESSAGE_STOP {
        ok := MayStop();
        if !ok || !started || !stopped { return false; }
        terminal := true;
        return;
      }
      ok := ObserveMessagesTools(MessagesStream.Notice(kind, b));
      if !ok { return; }
      if kind == MessagesStream.MESSAGE_START && b.messageType == "message" && StartsWithBracket(b.messageContent) { started := true; }
      if kind == MessagesStream.MESSAGE_DELTA {
        if b.stop.BadDelta? { return false; }
        if b.stop.Stop? && b.stop.reason != "" { stopped := true; }
      }
    }

    /** sseEvent. */
    method SseEvent() returns (ok: bool)
      requires Trusted() && NaturalKeys(tools) && |data| > 0
      modifies `tools, `ledger, `terminal, `started, `stopped
      ensures Takes(ok, EventStep(operation, requirements, decode, old(Streamed()), EventStream.Dispatch(event, data)))
    {
      hide StreamVerdict.ChatEvent, StreamVerdict.ResponsesEvent, StreamVerdict.MessagesEvent, ChatStream.AllFinished, JsonScanner.Accepts, ReportsFailure;
      if terminal { return false; }
      if data == DONE {
        if operation != Chat || ledger.choices == 0 || ledger.finishedChoices != ledger.choices || !ChatStream.AllFinished(requirements, tools) {
          return false;
        }
        terminal := true;
        return true;
      }
      ok := CompleteObject(data);
      if !ok { return; }
      match decode(event, data) {
        case None => return false;
        case Some(e) =>
          if ReportsFailure(operation, e, event) { return false; }
          match operation {
            case Chat => ok := ChatEvent(e);
            case Responses => ok := ResponsesEvent(KindOf(e, event), e.responses);
            case Messages => ok := MessagesEvent(KindOf(e, event), e.messages);
          }
      }
    }

    // ---- Bytes -------------------------------------------------------------------------------------

    predicate Reaches(ok: bool, r: Machines.Outcome<StreamVerdict.State, ()>)
      reads `line, `data, `event, `ledger, `tools, `started, `stopped, `terminal
    {
      ok == r.Advance? && (ok ==> r.next == State())
    }

    ghost predicate Valid()
      reads `tools
    {
      Trusted() && NaturalKeys(tools)
    }

    /** What a complete line does. */
    ghost function LineOutcome(s: StreamVerdict.State, text: bytes): Machines.Outcome<StreamVerdict.State, ()> {
      match EventStream.LineStep(s.0.pending, text)
      case Reject => Machines.Reject
      case Advance(p, ds) =>
        match Events(operation, requirements, decode, s.1, ds)
        case Reject => Machines.Reject
        case Advance(s1, _) => Machines.Advance((EventStream.Framer(s.0.line, p), s1), [])
    }

    lemma QuietLine(s: StreamVerdict.State, text: bytes)
      requires EventStream.LineStep(s.0.pending, text).Advance? ==> EventStream.LineStep(s.0.pending, text).events == []
      ensures LineOutcome(s, text)
              == match EventStream.LineStep(s.0.pending, text)
                 case Reject => Machines.Reject
                 case Advance(p, _) => Machines.Advance((EventStream.Framer(s.0.line, p), s.1), [])
    {
      hide EventStep;
    }

    lemma DispatchingLine(s: StreamVerdict.State)
      requires |s.0.pending.data| > 0
      ensures var d := EventStream.Dispatch(s.0.pending.event, s.0.pending.data);
        var r, o := LineOutcome(s, ""), EventStep(operation, requirements, decode, s.1, d);
        r.Advance? == o.Advance? && (r.Advance? ==> r.next == (EventStream.Framer(s.0.line, EventStream.EMPTY), o.next))
    {
      hide EventStep;
      Machines.RunOne(Eventer(operation, requirements, decode), s.1, EventStream.Dispatch(s.0.pending.event, s.0.pending.data));
    }

    /** An empty line. */
    method DispatchLine() returns (ok: bool)
      requires Valid()
      modifies `data, `event, `tools, `ledger, `terminal, `started, `stopped
      ensures Reaches(ok, LineOutcome(old(State()), "")) && (ok ==> Valid())
    {
      hide EventStep, LineOutcome;
      ghost var s0 := State();
      ok := true;
      if |data| > 0 {
        DispatchingLine(s0);
        ok := SseEvent();
        if ok { EventNatural(operation, requirements, decode, s0.1, EventStream.Dispatch(event, data)); }
      } else {
        QuietLine(s0, "");
      }
      data, event := "", "";
    }

    method SseLine(text: bytes) returns (ok: bool)
      requires Valid()
      modifies `data, `event, `tools, `ledger, `terminal, `started, `stopped
      ensures Reaches(ok, LineOutcome(old(State()), text)) && (ok ==> Valid())
    {
      hide LineOutcome, EventStream.FieldName, EventStream.FieldValue;
      if |text| == 0 {
        ok := DispatchLine();
        return;
      }
      QuietLine(State(), text);
      if text[0] == ':' { return true; }
      var field, value := EventStream.FieldName(text), EventStream.FieldValue(text);
      if field == "event" {
        event := value;
      } else if field == "data" {
        if |data| + |value| + 1 > EventStream.MAX_EVENT { return false; }
        ghost var before := data;
        if |data| > 0 { data := data + "\n"; }
        data := data + value;
        assert data == EventStream.Joined(before, value);
      }
      return true;
    }

    method FeedByte(b: char) returns (ok: bool)
      requires Valid()
      modifies `line, `data, `event, `tools, `ledger, `terminal, `started, `stopped
      ensures Reaches(ok, Machines.Piped(EventStream.Step, Eventer(operation, requirements, decode), old(State()), b)) && (ok ==> Valid())
    {
      ghost var s0 := State();
      if b == '\n' {
        ByteIsLine(s0);
        hide LineOutcome, EventStream.WithoutReturn, EventStep, Machines.Piped, Machines.Run;
        ok := SseLine(EventStream.WithoutReturn(line));
        line := "";
      } else {
        ByteIsQuiet(s0, b);
        hide EventStep, Machines.Piped, Machines.Run;
        if |line| >= EventStream.MAX_EVENT { return false; }
        line := line + [b];
        ok := true;
      }
    }

    lemma ByteIsLine(s: StreamVerdict.State)
      ensures var r := Machines.Piped(EventStream.Step, Eventer(operation, requirements, decode), s, '\n');
        var o := LineOutcome(s, EventStream.WithoutReturn(s.0.line));
        r.Advance? == o.Advance? && (r.Advance? ==> r.next == (EventStream.Framer("", o.next.0.pending), o.next.1))
    {
      hide EventStream.LineStep, EventStep;
    }

    lemma ByteIsQuiet(s: StreamVerdict.State, b: char)
      requires b != '\n'
      ensures Machines.Piped(EventStream.Step, Eventer(operation, requirements, decode), s, b)
              == if |s.0.line| >= EventStream.MAX_EVENT then Machines.Reject
                 else Machines.Advance((s.0.(line := s.0.line + [b]), s.1), [])
    {
      hide EventStep;
    }

    method FeedStream(input: bytes) returns (ok: bool)
      requires Valid()
      modifies `line, `data, `event, `tools, `ledger, `terminal, `started, `stopped
      ensures Reaches(ok, Machines.Run(Bytes(operation, requirements, decode), old(State()), input)) && (ok ==> Valid())
    {
      hide EventStep, EventStream.Step;
      ghost var s0, step := State(), Bytes(operation, requirements, decode);
      var i := 0;
      while i < |input|
        invariant 0 <= i <= |input| && Valid()
        invariant Reaches(true, Machines.Run(step, s0, input[..i]))
      {
        Machines.RunStep(step, s0, input, i);
        ok := FeedByte(input[i]);
        i := i + 1;
        if !ok {
          Machines.RunRejects(step, s0, input, i);
          return;
        }
      }
      assert input[..i] == input;
      ok := true;
    }

    /** A piece of the body arrives. Once something is wrong, nothing more is looked at. */
    method Feed(input: bytes)
      requires Valid() && json.operation == Some(operation) && json.requirements == requirements
      modifies this, json
      ensures old(err) ==> err
      ensures !err ==> Valid()
      ensures !old(err) && stream ==> Reaches(!err, Machines.Run(Bytes(operation, requirements, decode), old(State()), input))
      ensures !old(err) && !stream ==> json.Follows(!err, CheckText(Some(operation), requirements, old(json.State()), input))
    {
      hide Bytes, CheckText, NaturalKeys;
      if err { return; }
      var ok;
      if stream {
        ok := FeedStream(input);
      } else {
        ok := json.Feed(input);
      }
      err := !ok;
    }

    /** The body has ended. */
    method Finish() returns (ok: bool)
      requires !stream && !err ==> Sound(json.Scan())
      modifies json
      ensures stream ==> ok == (!err && EndsWell(State()))
      ensures !stream ==> ok == (!err && JsonScanner.FinishedAtEnd(old(json.Scan())) && Satisfied(operation, requirements, countTokens, old(json.Kept())))
    {
      hide TrimSpace, Satisfied, Sound, JsonScanner.FinishedAtEnd;
      if err { return false; }
      if stream {
        return |TrimSpace(line)| == 0 && |data| == 0 && event == "" && terminal;
      }
      ok := json.Finish();
      if ok { ok := Satisfied(operation, requirements, countTokens, json.Kept()); }
    }
  }

  lemma NoCallsNoIds(calls: map<int, StreamCall>)
    requires |calls| == 0
    ensures ChatStream.ModernIds(calls) == {}
  {
    assert calls.Keys == {};
  }

  /** An answer checked in the pieces it arrives in gets the verdict of the whole. */
  method CheckPieces(operation: Operation, requirements: Requirements, countTokens: bool, stream: bool,
                     decode: Decoder, same: (bytes, bytes) -> bool, pieces: seq<bytes>) returns (ok: bool)
    requires forall a, b :: same(a, b) <==> SameArguments(a, b)
    ensures stream ==> ok == AcceptsStream(operation, requirements, decode, Machines.Concat(pieces))
    ensures !stream ==> ok == AcceptsBody(operation, requirements, countTokens, Machines.Concat(pieces))
  {
    hide Bytes, EndsWell, JsonScanner.FinishedAtEnd, AcceptsBody, Satisfied, Checker, Sound;
    var c := new ResponseCompletion(operation, requirements, countTokens, stream, stream, decode, same);
    ghost var step, check := Bytes(operation, requirements, decode), Checker(Some(operation), requirements);
    var i := 0;
    while i < |pieces|
      invariant 0 <= i <= |pieces|
      invariant c.operation == operation && c.requirements == requirements && c.countTokens == countTokens && c.stream == stream
      invariant c.decode == decode && c.json.operation == Some(operation) && c.json.requirements == requirements
      invariant fresh(c) && fresh(c.json) && (!c.err ==> c.Valid())
      invariant stream ==> c.Reaches(!c.err, Machines.Run(step, NEW_STATE, Machines.Concat(pieces[..i])))
      invariant !stream ==> c.json.Follows(!c.err, Machines.Run(check, NEW, Machines.Concat(pieces[..i])))
    {
      assert pieces[..i + 1][..i] == pieces[..i];
      Machines.RunAppend(step, NEW_STATE, Machines.Concat(pieces[..i]), pieces[i]);
      Machines.RunAppend(check, NEW, Machines.Concat(pieces[..i]), pieces[i]);
      if !c.err { c.Feed(pieces[i]); }
      i := i + 1;
    }
    assert pieces[..i] == pieces;
    BodyCheck(operation, requirements, countTokens, Machines.Concat(pieces));
    ok := c.Finish();
  }
}
