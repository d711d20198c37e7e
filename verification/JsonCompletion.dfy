/**
  The incremental JSON checker as the gateway runs it: one object whose fields are updated
  byte by byte, in whatever pieces the body arrives.  Every method is proved against the
  functions of modules JsonScanner and CompletionContract, so that the theorems about
  those hold of the object.
 */
module JsonCompletion {
  import opened GoText
  import opened JsonGrammar
  import opened JsonScanner
  import opened Places
  import opened CompletionContract
  import Machines

  /** Scanner and contract side by side. */
  type Check = (Scanner, Contract)

  type Checked = Machines.Outcome<Check, ()>

  const NEW: Check := (START, FRESH)

  /** Without an operation only the syntax is checked. */
  function Watcher(op: Option<Operation>, req: Requirements): (Contract, Event) -> Verdict {
    if op.None? then (c, e) => Machines.Advance(c, []) else Applier(op.value, req)
  }

  function Watch(op: Option<Operation>, req: Requirements, c: Contract, events: seq<Event>): Verdict {
    Machines.Run(Watcher(op, req), c, events)
  }

  function Joint(op: Option<Operation>, req: Requirements, o: JsonScanner.Outcome, kept: Contract): Checked {
    Machines.Fed(Watcher(op, req), kept, o)
  }

  function CheckByte(op: Option<Operation>, req: Requirements, c: Check, b: char): Checked {
    Joint(op, req, JsonScanner.Step(c.0, b), c.1)
  }

  function Checker(op: Option<Operation>, req: Requirements): (Check, char) -> Checked {
    Machines.Pipe(JsonScanner.Step, Watcher(op, req))
  }

  function CheckText(op: Option<Operation>, req: Requirements, c: Check, text: bytes): Checked {
    Machines.Run(Checker(op, req), c, text)
  }

  // ---- Two passes in one ----------------------------------------------------------------

  lemma WatchParts(op: Option<Operation>, req: Requirements, c: Contract, a: seq<Event>, b: seq<Event>)
    ensures Watch(op, req, c, a + b).Advance? <==> Watch(op, req, c, a).Advance? && Watch(op, req, Watch(op, req, c, a).next, b).Advance?
    ensures Watch(op, req, c, a + b).Advance? ==> Watch(op, req, c, a + b).next == Watch(op, req, Watch(op, req, c, a).next, b).next
  {
    Machines.RunAppend(Watcher(op, req), c, a, b);
  }

  /** Watching while scanning is scanning first and watching what it reported. */
  lemma CheckIsJoint(op: Option<Operation>, req: Requirements, c: Check, text: bytes)
    ensures CheckText(op, req, c, text) == Joint(op, req, JsonScanner.Run(c.0, text), c.1)
  {
    Machines.PipeIsFed(JsonScanner.Step, Watcher(op, req), c, text);
  }

  lemma {:induction false} WatchUnbound(req: Requirements, c: Contract, events: seq<Event>)
    ensures Watch(None, req, c, events).Advance?
  {
    if |events| > 0 { WatchUnbound(req, c, events[..|events| - 1]); }
  }

  lemma WatchNothing(op: Option<Operation>, req: Requirements, c: Contract)
    ensures Watch(op, req, c, []) == Machines.Advance(c, [])
  {
  }

  lemma WatchOne(op: Option<Operation>, req: Requirements, c: Contract, e: Event)
    ensures Watch(op, req, c, [e]) == if op.None? then Machines.Advance(c, []) else Apply(op.value, req, c, e)
  {
    hide Apply;
    Machines.RunOne(Watcher(op, req), c, e);
  }

  lemma JointQuiet(op: Option<Operation>, req: Requirements, o: JsonScanner.Outcome, kept: Contract)
    requires o.Advance? ==> o.events == []
    ensures Joint(op, req, o, kept) == if o.Advance? then Machines.Advance((o.next, kept), []) else Machines.Reject
  {
    hide Watcher, Machines.Run;
    WatchNothing(op, req, kept);
  }

  lemma JointLeaf(op: Option<Operation>, req: Requirements, s: Scanner, e: Event, kept: Contract)
    requires e.Leaf?
    ensures var v := if op.None? then Machines.Advance(kept, [])
                     else AtLeaf(op.value, kept, PlaceOf(e.path), e.key, e.value, e.kind, e.overflow);
      var j := Joint(op, req, Machines.Advance(s, [e]), kept);
      j.Advance? == v.Advance? && (v.Advance? ==> j.next == (s, v.next))
  {
    hide Watcher, Machines.Run, AtLeaf, PlaceOf;
    WatchOne(op, req, kept, e);
  }

  lemma JointClosed(op: Option<Operation>, req: Requirements, s: Scanner, path: string, kind: char, kept: Contract)
    ensures var v := if op.None? then Machines.Advance(kept, []) else CompletionContract.Close(op.value, req, kept);
      var j := Joint(op, req, Machines.Advance(s, [Closed(path, kind)]), kept);
      j.Advance? == v.Advance? && (v.Advance? ==> j.next == (s, v.next))
  {
    hide Watcher, Machines.Run, CompletionContract.Close;
    WatchOne(op, req, kept, Closed(path, kind));
  }

  lemma JointOpened(op: Option<Operation>, req: Requirements, s: Scanner, path: string, kind: char, kept: Contract)
    ensures var v := if op.None? then Machines.Advance(kept, []) else CompletionContract.Open(op.value, kept, PlaceOf(path), kind);
      var j := Joint(op, req, Machines.Advance(s, [Opened(path, kind)]), kept);
      j.Advance? == v.Advance? && (v.Advance? ==> j.next == (s, v.next))
  {
    hide Watcher, Machines.Run, CompletionContract.Open, PlaceOf;
    WatchOne(op, req, kept, Opened(path, kind));
  }

  /** A byte that ends a number or literal is read again. */
  lemma JointScalar(op: Option<Operation>, req: Requirements, s: Scanner, kept: Contract, b: char)
    requires s.mode == InScalar && IsDelimiter(b)
    ensures var first := Joint(op, req, JsonScanner.FinishScalar(s), kept);
      var whole := CheckByte(op, req, (s, kept), b);
      if first.Reject? then whole.Reject?
      else var next := Joint(op, req, JsonScanner.StepBetween(first.next.0, b), first.next.1);
        whole.Advance? == next.Advance? && (whole.Advance? ==> whole.next == next.next)
  {
    hide Watcher, Machines.Run, JsonScanner.StepBetween, JsonScanner.FinishScalar;
    var o := JsonScanner.FinishScalar(s);
    if o.Advance? {
      var r := JsonScanner.StepBetween(o.next, b);
      if r.Advance? { WatchParts(op, req, kept, o.events, r.events); }
    }
  }

  lemma JointSame(op: Option<Operation>, req: Requirements, s: Scanner, t: Scanner, events: seq<Event>, kept: Contract)
    ensures var a, b := Joint(op, req, Machines.Advance(s, events), kept), Joint(op, req, Machines.Advance(t, events), kept);
      a.Advance? == b.Advance? && (a.Advance? ==> a.next == (s, b.next.1) && b.next.0 == t)
  {
    hide Watcher, Machines.Run;
  }

  // ---- Pending scalars --------------------------------------------------------------------

  /** Numbers, literals and keys are only read inside the root object. */
  predicate Sound(s: Scanner) {
    (s.mode == InScalar ==> |s.stack| > 0) && (s.root && |s.stack| == 0 ==> s.done)
  }

  lemma StepSound(s: Scanner, b: char)
    requires Sound(s) && JsonScanner.Step(s, b).Advance?
    ensures Sound(JsonScanner.Step(s, b).next)
  {
    hide ScalarToken, Unquote, Tracked, StringLimit, IsHex;
    if s.mode == InScalar && IsDelimiter(b) {
      var s1 := JsonScanner.FinishScalar(s).next;
      assert Sound(s1) && s1.mode == Between;
      BetweenSound(s1, b);
    } else if s.mode == Between {
      BetweenSound(s, b);
    }
  }

  lemma StartSound(s: Scanner, b: char)
    requires Sound(s) && s.mode == Between && !s.done && JsonScanner.StartValue(s, b).Advance?
    ensures Sound(JsonScanner.StartValue(s, b).next)
  {
    hide StringLimit, ValuePath;
  }

  lemma CloseSound(s: Scanner)
    requires s.mode == Between && CloseTop(s).Advance?
    ensures Sound(CloseTop(s).next)
  {
  }

  lemma BetweenSound(s: Scanner, b: char)
    requires Sound(s) && s.mode == Between && JsonScanner.StepBetween(s, b).Advance?
    ensures Sound(JsonScanner.StepBetween(s, b).next)
  {
    hide JsonScanner.StartValue, CloseTop;
    if !s.done && JsonScanner.StartValue(s, b).Advance? { StartSound(s, b); }
    if CloseTop(s).Advance? { CloseSound(s); }
  }

  lemma ScalarLeavesMode(s: Scanner)
    ensures JsonScanner.FinishScalar(s).Advance? ==> JsonScanner.FinishScalar(s).next.mode == Between
  {
  }

  lemma {:induction false} CheckSound(op: Option<Operation>, req: Requirements, c: Check, text: bytes)
    requires Sound(c.0) && CheckText(op, req, c, text).Advance?
    ensures Sound(CheckText(op, req, c, text).next.0)
    decreases |text|
  {
    hide Watcher, JsonScanner.Step, Sound;
    if |text| > 0 {
      var front, b := text[..|text| - 1], text[|text| - 1];
      CheckMore(op, req, c, front, b);
      assert front + [b] == text;
      CheckSound(op, req, c, front);
      StepSound(CheckText(op, req, c, front).next.0, b);
    }
  }

  /** One more byte of a text. */
  lemma CheckMore(op: Option<Operation>, req: Requirements, c: Check, front: bytes, b: char)
    ensures var r, whole := CheckText(op, req, c, front), CheckText(op, req, c, front + [b]);
      if r.Reject? then whole.Reject?
      else var next := CheckByte(op, req, r.next, b);
        whole.Advance? == next.Advance? && (whole.Advance? ==> whole.next == next.next && JsonScanner.Step(r.next.0, b).Advance?
                                                               && whole.next.0 == JsonScanner.Step(r.next.0, b).next)
  {
    hide Watcher, JsonScanner.Step;
    assert (front + [b])[..|front|] == front;
  }

  /** Feeding a body piece by piece and finishing is deciding `Accepts` on the whole. */
  lemma SyntaxCheck(req: Requirements, text: bytes)
    ensures var r := CheckText(None, req, NEW, text);
      Accepts(text) <==> r.Advance? && FinishedAtEnd(r.next.0)
    ensures CheckText(None, req, NEW, text).Advance? ==> Sound(CheckText(None, req, NEW, text).next.0)
  {
    hide FinishedAtEnd, CheckText, JsonScanner.Run, Watcher, Machines.Run;
    CheckIsJoint(None, req, NEW, text);
    var r := JsonScanner.Run(START, text);
    if r.Advance? { WatchUnbound(req, FRESH, r.events); }
    if CheckText(None, req, NEW, text).Advance? { CheckSound(None, req, NEW, text); }
  }

  lemma WatchIsObserve(op: Operation, req: Requirements, c: Contract, events: seq<Event>)
    ensures Watch(Some(op), req, c, events) == Observe(op, req, c, events)
  {
  }

  /** With an operation, the final state decides `AcceptsBody`. */
  lemma BodyCheck(op: Operation, req: Requirements, countTokens: bool, text: bytes)
    ensures var r := CheckText(Some(op), req, NEW, text);
      AcceptsBody(op, req, countTokens, text)
      <==> r.Advance? && FinishedAtEnd(r.next.0) && Satisfied(op, req, countTokens, r.next.1)
    ensures CheckText(Some(op), req, NEW, text).Advance? ==> Sound(CheckText(Some(op), req, NEW, text).next.0)
  {
    hide FinishedAtEnd, CheckText, JsonScanner.Run, Satisfied, Observe;
    CheckIsJoint(Some(op), req, NEW, text);
    var r := JsonScanner.Run(START, text);
    if r.Advance? { WatchIsObserve(op, req, FRESH, r.events); }
    if CheckText(Some(op), req, NEW, text).Advance? { CheckSound(Some(op), req, NEW, text); }
  }

  lemma CheckNothing(op: Option<Operation>, req: Requirements, c: Check)
    ensures CheckText(op, req, c, []) == Machines.Advance(c, [])
  {
  }

  lemma CheckRejects(op: Option<Operation>, req: Requirements, c: Check, text: bytes, i: nat)
    requires i <= |text| && CheckText(op, req, c, text[..i]).Reject?
    ensures CheckText(op, req, c, text).Reject?
  {
    hide Watcher, JsonScanner.Step;
    Machines.RunRejects(Checker(op, req), c, text, i);
  }

  /** A leaf is observed in these fields only. */
  lemma ObservedRest(op: Operation, c: Contract, place: Place, value: bytes, kind: char)
    ensures var r := CompletionContract.ObserveLeaf(op, c, place, value, kind);
      r == c.(failed := r.failed, terminal := r.terminal, stopReason := r.stopReason, tokenCount := r.tokenCount)
  {
    hide Count;
  }

  // ---- Leaves, switch by switch ----------------------------------------------------------

  predicate FieldRefused(f: ResultFrame, field: string, value: bytes, kind: char) {
    field == "index" && f.place == Choice && Count(value, kind).None?
  }

  predicate PlaceRefused(op: Operation, place: Place, value: bytes, kind: char) {
    (IsArguments(op, place) && (kind != 's' || !ValidArguments(value))) || ItemMustBeObject(op, place)
  }

  function Marked(op: Operation, f: ResultFrame, place: Place, value: bytes, kind: char): ResultFrame {
    f.(payload := f.payload || IsPayload(place, value, kind), arguments := f.arguments || IsArguments(op, place))
  }

  /** The two switches together are what the contract says of a leaf. */
  lemma RefusedBySwitches(op: Operation, f: ResultFrame, place: Place, field: string, value: bytes, kind: char, overflow: bool)
    ensures ForbiddenLeaf(op, f, place, field, value, kind, overflow)
            <==> OversizedIdentity(f, field, value, kind, overflow) || FieldRefused(f, field, value, kind)
                 || PlaceRefused(op, place, value, kind)
  {
    hide Count, ValidArguments, IsArguments, OversizedIdentity, ItemMustBeObject;
  }

  lemma NotedBySwitches(op: Operation, f: ResultFrame, place: Place, field: string, value: bytes, kind: char)
    ensures var r := Marked(op, Note(f, field, value, kind), place, value, kind);
      LeafFrame(op, f, place, field, value, kind)
      == if place == FinishReason then r.(finished := kind == 's' && value != "") else r
  {
    hide Count, IsPayload, IsArguments, Remember;
  }

  // ---- The object -------------------------------------------------------------------------

  class JsonCompletion {
    const operation: Option<Operation>
    const requirements: Requirements
    var stack: seq<Frame>
    var mode: Mode
    var token: bytes
    var overflow: bool
    var escape: bool
    var unicode: nat
    var key: bool
    var scalarPath: string
    var root: bool
    var done: bool
    var results: seq<ResultFrame>
    var choices: nat
    var finishedChoices: nat
    var tools: nat
    var toolCount: nat
    var toolIds: set<string>
    var seen: set<int>
    var output: bool
    var content: bool
    var tokenCount: bool
    var failed: bool
    var terminal: bool
    var stopReason: string

    constructor (operation: Option<Operation>, requirements: Requirements)
      ensures this.operation == operation && this.requirements == requirements
      ensures State() == NEW
    {
      this.operation, this.requirements := operation, requirements;
      stack, mode, token, overflow, escape, unicode := [], Between, "", false, false, 0;
      key, scalarPath, root, done := false, "", false, false;
      results, choices, finishedChoices, tools, toolCount, toolIds, seen := [], 0, 0, 0, 0, {}, {};
      output, content, tokenCount, failed, terminal, stopReason := false, false, false, false, false, "";
    }

    function Scan(): Scanner
      reads `stack, `mode, `token, `overflow, `escape, `unicode, `key, `scalarPath, `root, `done
    {
      Scanner(stack, mode, token, overflow, escape, unicode, key, scalarPath, root, done)
    }

    function Kept(): Contract
      reads `results, `choices, `finishedChoices, `tools, `toolCount, `toolIds, `seen, `output, `content, `tokenCount,
            `failed, `terminal, `stopReason
    {
      Contract(results, choices, finishedChoices, tools, toolCount, toolIds, seen, output, content, tokenCount,
               failed, terminal, stopReason)
    }

    function State(): Check
      reads this
    {
      (Scan(), Kept())
    }

    predicate Follows(ok: bool, r: Checked)
      reads this
    {
      ok == r.Advance? && (ok ==> r.next == State())
    }

    predicate Keeps(ok: bool, v: Verdict)
      reads this
    {
      ok == v.Advance? && (ok ==> v.next == Kept())
    }

    // ---- Tokens ------------------------------------------------------------------------

    method AppendToken(b: char)
      modifies `token, `overflow
      ensures Scan() == Append(old(Scan()), b)
    {
      if |token| < StringLimit(scalarPath, key) {
        token := token + [b];
      } else {
        overflow := true;
      }
    }

    method BeginString(isKey: bool, path: string)
      modifies `mode, `key, `scalarPath, `token, `overflow
      ensures Scan() == JsonScanner.BeginString(old(Scan()), isKey, path)
    {
      mode := InString;
      key := isKey;
      scalarPath := path;
      token := "";
      overflow := false;
    }

    method SetTopState(state: char)
      requires |stack| > 0
      modifies `stack
      ensures stack == SetState(old(stack), state)
    {
      var top := stack[|stack| - 1];
      stack := stack[..|stack| - 1] + [top.(state := state)];
    }

    method ValueDone()
      modifies `stack, `done
      ensures Scan() == JsonScanner.ValueDone(old(Scan()))
    {
      if |stack| == 0 {
        done := true;
      } else {
        SetTopState(',');
      }
    }

    // ---- What values mean ------------------------------------------------------------------

    /** The switch of observeResultValue on the key: what the frame `f` of the open object
        remembers of a leaf, and the choice indexes that are refused. */
    method ObserveField(f: ResultFrame, field: string, value: bytes, kind: char) returns (ok: bool, r: ResultFrame)
      ensures ok == !FieldRefused(f, field, value, kind)
      ensures ok ==> r == Note(f, field, value, kind)
    {
      hide Atoi;
      r := f;
      match field {
        case "index" =>
          var n := Atoi(value);
          if kind == 'v' && n.Some? && n.value >= 0 {
            r := r.(index := n.value, indexed := true);
          } else if f.place == Choice {
            return false, r;
          }
        case "type" =>
          if kind == 's' { r := r.(role := value); }
        case "name" =>
          if kind == 's' { r := r.(name := value); }
        case "id" =>
          if kind == 's' { r := r.(id := value); }
        case "call_id" =>
          if kind == 's' { r := r.(callId := value); }
        case "finish_reason" =>
          if kind == 's' { r := r.(finish := value); }
        case _ =>
      }
      ok := true;
    }

    /** Its switch on the path: which values are payloads or complete arguments, and which are
        refused because arguments are incomplete or a result is no object. */
    method ObservePlace(op: Operation, place: Place, value: bytes, kind: char) returns (ok: bool, payload: bool, arguments: bool)
      ensures ok == !PlaceRefused(op, place, value, kind)
      ensures ok ==> payload == IsPayload(place, value, kind) && arguments == IsArguments(op, place)
    {
      hide ValidArguments;
      ok, payload, arguments := true, false, false;
      match place {
        case MessageContent | Refusal =>
          payload := kind == 's';
        case FunctionArguments | LegacyArguments | OutputArguments =>
          if (place == OutputArguments && op != Responses) || (place != OutputArguments && op != Chat) { return; }
          if kind != 's' || !ValidArguments(value) { return false, payload, arguments; }
          arguments := true;
        case BlockText | BlockThinking | BlockData | OutputText | OutputRefusal =>
          payload := kind == 's';
        case OutputEncrypted =>
          payload := kind == 's' && value != "";
        case Choice | OutputItem | Block =>
          if (place == Choice && op == Chat) || (place == OutputItem && op == Responses) || (place == Block && op == Messages) {
            ok := false;
          }
        case _ =>
      }
    }

    /** Identities of tool calls have at most 256 bytes. */
    method IdentityTooLong(f: ResultFrame, field: string, value: bytes, kind: char) returns (r: bool)
      ensures r == OversizedIdentity(f, field, value, kind, overflow)
    {
      var identityFrame := f.place == ToolCall || f.place == Function || f.place == Legacy || f.place == OutputItem || f.place == Block;
      r := identityFrame && (field == "id" || field == "name" || field == "call_id") && kind == 's'
           && (overflow || |value| > MAX_IDENTITY);
    }

    /** All of observeResultValue for a leaf, with the finish reason from the end of
        observeValue: the oversized identities first, then the two switches. */
    method ObserveResult(op: Operation, f: ResultFrame, place: Place, field: string, value: bytes, kind: char)
      returns (ok: bool, r: ResultFrame)
      ensures ok == !ForbiddenLeaf(op, f, place, field, value, kind, overflow)
      ensures ok ==> r == LeafFrame(op, f, place, field, value, kind)
    {
      hide ForbiddenLeaf, LeafFrame, OversizedIdentity, FieldRefused, PlaceRefused, IsPayload, IsArguments, Note;
      RefusedBySwitches(op, f, place, field, value, kind, overflow);
      NotedBySwitches(op, f, place, field, value, kind);
      r := f;
      var tooLong := IdentityTooLong(f, field, value, kind);
      if tooLong { return false, r; }
      ok, r := ObserveField(f, field, value, kind);
      if !ok { return; }
      var payload, arguments;
      ok, payload, arguments := ObservePlace(op, place, value, kind);
      if !ok { return; }
      if payload { r := r.(payload := true); }
      if arguments { r := r.(arguments := true); }
      if place == FinishReason { r := r.(finished := kind == 's' && value != ""); }
    }

    /** What a leaf tells the frame of the open object. */
    method NoteLeaf(op: Operation, path: string, field: string, value: bytes, kind: char)
      returns (ok: bool)
      modifies `results
      ensures ok == (old(|results|) > 0 && !ForbiddenLeaf(op, Top(old(Kept())), PlaceOf(path), field, value, kind, overflow))
      ensures ok ==> Kept() == WithTop(old(Kept()), LeafFrame(op, Top(old(Kept())), PlaceOf(path), field, value, kind))
    {
      hide PlaceOf, ForbiddenLeaf, LeafFrame;
      if |results| == 0 { return false; }
      var current;
      ok, current := ObserveResult(op, results[|results| - 1], PlaceOf(path), field, value, kind);
      if ok { results := results[..|results| - 1] + [current]; }
    }

    /** The status of a Responses answer. */
    method ObserveStatus(op: Operation, value: bytes, kind: char)
      modifies `failed, `terminal
      ensures terminal == if op == Responses then kind == 's' && value == "completed" else old(terminal)
      ensures failed == (old(failed) || (op == Responses && value in {"failed", "incomplete", "cancelled"}))
    {
      if op == Responses {
        terminal := kind == 's' && value == "completed";
        if value in {"failed", "incomplete", "cancelled"} { failed := true; }
      }
    }

    /** observeJSON, and the token count. */
    method ObserveJson(op: Operation, place: Place, value: bytes, kind: char)
      modifies `failed, `terminal, `stopReason, `tokenCount
      ensures var r := CompletionContract.ObserveLeaf(op, old(Kept()), place, value, kind);
        failed == r.failed && terminal == r.terminal && stopReason == r.stopReason && tokenCount == r.tokenCount
    {
      hide Count;
      match place {
        case Error =>
          if kind != 'n' { failed := true; }
        case Status =>
          ObserveStatus(op, value, kind);
        case StopReason =>
          if op == Messages {
            terminal := kind == 's' && value != "";
            stopReason := value;
          }
        case InputTokens =>
          if Count(value, kind).Some? { tokenCount := true; }
        case _ =>
      }
    }

    method ObserveLeaf(path: string, field: string, value: bytes, kind: char)
      returns (ok: bool)
      modifies `results, `failed, `terminal, `stopReason, `tokenCount
      ensures Keeps(ok, if operation.None? then Machines.Advance(old(Kept()), [])
                        else AtLeaf(operation.value, old(Kept()), PlaceOf(path), field, value, kind, overflow))
    {
      hide PlaceOf, ForbiddenLeaf, LeafFrame, CompletionContract.ObserveLeaf;
      if operation.None? { return true; }
      ok := NoteLeaf(operation.value, path, field, value, kind);
      if ok {
        ObservedRest(operation.value, Kept(), PlaceOf(path), value, kind);
        ObserveJson(operation.value, PlaceOf(path), value, kind);
      }
    }

    method RecordToolId(id: string) returns (ok: bool)
      modifies `toolCount, `toolIds
      ensures Keeps(ok, RecordTool(old(Kept()), id))
    {
      if toolCount + 1 > MAX_TOOLS { return false; }
      toolCount := toolCount + 1;
      if id == "" { return true; }
      if id in toolIds { return false; }
      toolIds := toolIds + {id};
      return true;
    }

    /** The innermost open result frame at a place. */
    method ResultFrameAt(place: Place) returns (n: int)
      ensures n == Nearest(results, place)
    {
      n := |results| - 1;
      assert results[..|results|] == results;
      while n >= 0 && results[n].place != place
        invariant -1 <= n < |results|
        invariant Nearest(results, place) == Nearest(results[..n + 1], place)
      {
        assert results[..n + 1][..n] == results[..n];
        n := n - 1;
      }
    }

    method PushResult(place: Place, kind: char)
      modifies `results
      ensures results == Entered(old(Kept()), place, kind).frames
    {
      hide NewFrame, OpenParent;
      if |results| > 0 {
        results := results[..|results| - 1] + [OpenParent(results[|results| - 1], place, kind)];
      }
      results := results + [NewFrame(place, kind)];
    }

    /** The observers of a container that opens. */
    method ObserveOpen(op: Operation, place: Place)
      modifies `failed, `terminal, `stopReason
      ensures Kept() == CompletionContract.ObserveOpen(op, old(Kept()), place)
    {
      match place {
        case Error => failed := true;
        case Status => if op == Responses { terminal := false; }
        case StopReason => if op == Messages { terminal := false; stopReason := ""; }
        case _ =>
      }
    }

    /** The counts and flags of step. */
    method NoteOpened(place: Place, kind: char)
      modifies `choices, `output, `content
      ensures choices == if place == Choice && kind == '{' then old(choices) + 1 else old(choices)
      ensures output == (old(output) || (place == Output && kind == '['))
      ensures content == (old(content) || (place == Content && kind == '['))
    {
      if place == Choice && kind == '{' { choices := choices + 1; }
      if place == Output && kind == '[' { output := true; }
      if place == Content && kind == '[' { content := true; }
    }

    lemma EnteredOnly(c: Contract, place: Place, kind: char)
      ensures var e := Entered(c, place, kind);
        e == c.(frames := e.frames,
                choices := if place == Choice && kind == '{' then c.choices + 1 else c.choices,
                output := c.output || (place == Output && kind == '['),
                content := c.content || (place == Content && kind == '['))
    {
    }

    /** The result frame of a container that opens, and the counts and flags. */
    method EnterResult(place: Place, kind: char)
      modifies `results, `choices, `output, `content
      ensures Kept() == Entered(old(Kept()), place, kind)
    {
      hide Entered;
      ghost var c := Kept();
      PushResult(place, kind);
      NoteOpened(place, kind);
      EnteredOnly(c, place, kind);
    }

    method OpenResult(op: Operation, place: Place, kind: char) returns (ok: bool)
      modifies `results, `choices, `output, `content, `failed, `terminal, `stopReason
      ensures Keeps(ok, CompletionContract.Open(op, old(Kept()), place, kind))
    {
      hide Kept, Entered, ForbiddenContainer, CompletionContract.ObserveOpen;
      if ForbiddenContainer(op, place, kind) { return false; }
      EnterResult(place, kind);
      ObserveOpen(op, place);
      return true;
    }

    method UpdateFrame(place: Place, change: ResultFrame -> ResultFrame)
      modifies `results
      ensures Kept() == Update(old(Kept()), place, change)
    {
      var n := ResultFrameAt(place);
      if n >= 0 { results := results[n := change(results[n])]; }
    }

    method CloseCall(f: ResultFrame) returns (ok: bool)
      modifies `results, `toolCount, `toolIds
      ensures Keeps(ok, CompletionContract.CloseCall(requirements, old(Kept()), f))
    {
      hide AcceptsTool;
      var legacy := f.place == Legacy;
      if f.name == "" || !f.arguments || (!legacy && (f.id == "" || f.role != "function")) || !AcceptsTool(requirements, f.name) {
        return false;
      }
      ok := RecordToolId(if legacy then "" else f.id);
      if !ok { return; }
      UpdateFrame(Message, (p: ResultFrame) => p.(tools := p.tools + 1, payload := true));
    }

    method CloseChoice(f: ResultFrame) returns (ok: bool)
      modifies `seen, `finishedChoices
      ensures Keeps(ok, CompletionContract.CloseChoice(requirements, old(Kept()), f))
    {
      if requirements.maxToolCalls > 0 && f.tools > requirements.maxToolCalls { return false; }
      if !f.payload { return false; }
      if requirements.expectedChoices > 0 {
        if (!f.indexed && requirements.expectedChoices > 1) || f.index >= requirements.expectedChoices || f.index in seen { return false; }
        seen := seen + {f.index};
      }
      var called := f.finish == "tool_calls" || f.finish == "function_call";
      if f.tools > 0 && !called { return false; }
      if (called || requirements.toolMode == RequiredTools) && f.tools == 0 { return false; }
      if f.finished && f.message { finishedChoices := finishedChoices + 1; }
      return true;
    }

    method CloseOutputItem(f: ResultFrame) returns (ok: bool)
      modifies `tools, `toolCount, `toolIds
      ensures Keeps(ok, CompletionContract.CloseOutputItem(requirements, old(Kept()), f))
    {
      hide AcceptsTool;
      if f.role == "function_call" {
        if f.name == "" || f.callId == "" || !f.arguments || !AcceptsTool(requirements, f.name) { return false; }
        ok := RecordToolId(f.callId);
        if ok { tools := tools + 1; }
      } else if f.role == "message" {
        ok := f.payload;
      } else {
        ok := f.role != "";
      }
    }

    method CloseBlock(f: ResultFrame) returns (ok: bool)
      modifies `tools, `toolCount, `toolIds
      ensures Keeps(ok, CompletionContract.CloseBlock(requirements, old(Kept()), f))
    {
      hide AcceptsTool;
      if f.role == "tool_use" {
        if f.name == "" || f.id == "" || !f.arguments || !AcceptsTool(requirements, f.name) { return false; }
        ok := RecordToolId(f.id);
        if ok { tools := tools + 1; }
      } else {
        ok := f.payload;
      }
    }

    method PopResult() returns (f: ResultFrame)
      requires |results| > 0
      modifies `results
      ensures f == Top(old(Kept())) && Kept() == old(Kept()).(frames := old(results[..|results| - 1]))
    {
      f := results[|results| - 1];
      results := results[..|results| - 1];
    }

    /** closeResultFrame. */
    method CloseResult(op: Operation) returns (ok: bool)
      modifies `results, `seen, `finishedChoices, `tools, `toolCount, `toolIds
      ensures Keeps(ok, CompletionContract.Close(op, requirements, old(Kept())))
    {
      hide CompletionContract.CloseFrame;
      if |results| == 0 { return false; }
      var f := PopResult();
      ok := CloseFrame(op, f);
    }

    /** What the frame that closes tells the frames around it. */
    method CloseFrame(op: Operation, f: ResultFrame) returns (ok: bool)
      modifies `results, `seen, `finishedChoices, `tools, `toolCount, `toolIds
      ensures Keeps(ok, CompletionContract.CloseFrame(op, requirements, old(Kept()), f))
    {
      hide Kept, CompletionContract.CloseCall, CompletionContract.CloseChoice, CompletionContract.CloseOutputItem,
        CompletionContract.CloseBlock, Update;
      ok := true;
      match f.place {
        case Function =>
          UpdateFrame(ToolCall, (p: ResultFrame) => p.(name := f.name, arguments := f.arguments));
        case ToolCall =>
          ok := CloseCall(f);
        case Legacy =>
          ok := CloseCall(f);
        case Message =>
          if !f.payload { return false; }
          UpdateFrame(Choice, (p: ResultFrame) => p.(tools := f.tools, payload := true));
        case Choice =>
          ok := CloseChoice(f);
        case OutputPart =>
          if op == Responses {
            if !f.payload || (f.role != "output_text" && f.role != "refusal") { return false; }
            UpdateFrame(OutputItem, (p: ResultFrame) => p.(payload := true));
          }
        case OutputItem =>
          if op == Responses { ok := CloseOutputItem(f); }
        case Block =>
          if op == Messages { ok := CloseBlock(f); }
        case _ =>
      }
    }

    // ---- Strings, scalars and containers -----------------------------------------------------

    ghost function Sees(events: JsonScanner.Outcome, kept: Contract): Checked
    {
      Joint(operation, requirements, events, kept)
    }

    method FinishKey() returns (ok: bool)
      modifies `mode, `stack
      ensures ok == JsonScanner.FinishKey(old(Scan())).Advance?
      ensures ok ==> JsonScanner.FinishKey(old(Scan())) == Machines.Advance(Scan(), [])
    {
      hide Unquote, Tracked, StoredKey;
      if |stack| == 0 { return false; }
      mode := Between;
      var value := if overflow then "" else Unquote(token);
      var f := stack[|stack| - 1];
      if value in f.fields { return false; }
      assert f.fields + {} == f.fields;
      if Tracked(value) { f := f.(fields := f.fields + {value}); }
      f := f.(key := StoredKey(value), state := ':');
      stack := stack[..|stack| - 1] + [f];
      return true;
    }

    method FinishString() returns (ok: bool)
      modifies this
      ensures Follows(ok, Sees(JsonScanner.FinishString(old(Scan())), old(Kept())))
    {
      hide Unquote, AtLeaf, JsonScanner.FinishKey, JsonScanner.ValueDone, Watcher, Machines.Run;
      ghost var s0, k0 := Scan(), Kept();
      if key {
        assert JsonScanner.FinishString(s0) == JsonScanner.FinishKey(s0);
        ok := FinishKey();
        assert Kept() == k0;
        hide Scan, Kept, JsonScanner.FinishString;
        JointQuiet(operation, requirements, JsonScanner.FinishKey(s0), k0);
      } else {
        ok := FinishText();
      }
    }

    /** A leaf has been read: it is observed, and the value is done. */
    method LeafDone(value: bytes, kind: char) returns (ok: bool)
      modifies `stack, `done, `results, `failed, `terminal, `stopReason, `tokenCount
      ensures Keeps(ok, if operation.None? then Machines.Advance(old(Kept()), [])
                        else AtLeaf(operation.value, old(Kept()), PlaceOf(scalarPath), old(TopKey(stack)), value, kind, overflow))
      ensures Scan() == JsonScanner.ValueDone(old(Scan()))
    {
      hide AtLeaf, PlaceOf, Kept, JsonScanner.ValueDone;
      ok := ObserveLeaf(scalarPath, TopKey(stack), value, kind);
      ValueDone();
    }

    lemma ScanFields()
      ensures var s := Scan();
        s.stack == stack && s.token == token && s.overflow == overflow && s.key == key && s.scalarPath == scalarPath
    {
    }

    /** Behind a string, number or literal. */
    method LeaveToken()
      modifies `mode
      ensures Scan() == old(Scan()).(mode := Between)
    {
      mode := Between;
    }

    method FinishText() returns (ok: bool)
      requires !key
      modifies `mode, `stack, `done, `results, `failed, `terminal, `stopReason, `tokenCount
      ensures Follows(ok, Sees(JsonScanner.FinishString(old(Scan())), old(Kept())))
    {
      hide Unquote, AtLeaf, PlaceOf, Joint, JsonScanner.ValueDone, ObservedString, Scan, Kept;
      ghost var s0, k0 := Scan(), Kept();
      ScanFields();
      ghost var e := Leaf(scalarPath, TopKey(stack), ObservedString(token, overflow), 's', overflow);
      JointLeaf(operation, requirements, JsonScanner.ValueDone(s0.(mode := Between)), e, k0);
      LeaveToken();
      ok := LeafDone(ObservedString(token, overflow), 's');
    }

    /** scalarDone: a number or literal ends. */
    method ScalarDone() returns (ok: bool)
      modifies `mode, `stack, `done, `results, `failed, `terminal, `stopReason, `tokenCount
      ensures Follows(ok, Sees(JsonScanner.FinishScalar(old(Scan())), old(Kept())))
    {
      hide AtLeaf, PlaceOf, Joint, JsonScanner.ValueDone, ScalarToken, Scan, Kept;
      ScanFields();
      if overflow || !ScalarToken(token) {
        JointQuiet(operation, requirements, JsonScanner.FinishScalar(Scan()), Kept());
        return false;
      }
      var kind := if token == "null" then 'n' else 'v';
      ghost var s0, k0 := Scan(), Kept();
      ghost var e := Leaf(scalarPath, TopKey(stack), token, kind, false);
      JointLeaf(operation, requirements, JsonScanner.ValueDone(s0.(mode := Between)), e, k0);
      LeaveToken();
      ok := LeafDone(token, kind);
    }

    method CloseMeaning(kind: char, path: string) returns (ok: bool)
      modifies `results, `seen, `finishedChoices, `tools, `toolCount, `toolIds
      ensures Follows(ok, Sees(Machines.Advance(Scan(), [Closed(path, kind)]), old(Kept())))
    {
      hide Watcher, Machines.Run, Kept, Scan, CompletionContract.Close;
      JointClosed(operation, requirements, Scan(), path, kind, Kept());
      ok := true;
      if operation.Some? { ok := CloseResult(operation.value); }
    }

    method PopFrame() returns (frame: Frame)
      requires |stack| > 0
      modifies `stack
      ensures frame == old(stack[|stack| - 1]) && Scan() == old(Scan()).(stack := old(stack[..|stack| - 1]))
    {
      frame := stack[|stack| - 1];
      stack := stack[..|stack| - 1];
    }

    method Close() returns (ok: bool)
      modifies this
      ensures Follows(ok, Sees(CloseTop(old(Scan())), old(Kept())))
    {
      hide Joint, Kept, Scan, JsonScanner.ValueDone;
      ScanFields();
      if |stack| == 0 {
        JointQuiet(operation, requirements, CloseTop(Scan()), Kept());
        return false;
      }
      var frame := PopFrame();
      ok := CloseMeaning(frame.kind, frame.path);
      ghost var s1 := Scan();
      ValueDone();
      JointSame(operation, requirements, s1, Scan(), [Closed(frame.path, frame.kind)], old(Kept()));
    }

    method PushFrame(path: string, b: char)
      modifies `root, `stack
      ensures Scan() == old(Scan()).(root := true, stack := old(stack) + [Frame(b, if b == '[' then 'V' else 'K', path, "", {})])
    {
      root := true;
      stack := stack + [Frame(b, if b == '[' then 'V' else 'K', path, "", {})];
    }

    method OpenMeaning(path: string, b: char) returns (ok: bool)
      modifies `results, `choices, `output, `content, `failed, `terminal, `stopReason
      ensures Follows(ok, Sees(Machines.Advance(Scan(), [Opened(path, b)]), old(Kept())))
    {
      hide Watcher, Machines.Run, Kept, Scan, CompletionContract.Open, PlaceOf;
      JointOpened(operation, requirements, Scan(), path, b, Kept());
      ok := true;
      if operation.Some? { ok := OpenResult(operation.value, PlaceOf(path), b); }
    }

    /** An object or array opens at a path. */
    method OpenAt(path: string, b: char) returns (ok: bool)
      modifies this
      ensures Follows(ok, Sees(Machines.Advance(old(Scan()).(root := true, stack := old(stack) + [Frame(b, if b == '[' then 'V' else 'K', path, "", {})]),
                                                [Opened(path, b)]), old(Kept())))
    {
      hide Joint, Kept, Scan;
      PushFrame(path, b);
      ok := OpenMeaning(path, b);
    }

    /** A number or literal starts. */
    method BeginScalar(path: string, b: char)
      modifies `mode, `token, `overflow, `scalarPath
      ensures Scan() == Append(old(Scan()).(mode := InScalar, token := "", overflow := false, scalarPath := path), b)
    {
      hide Append;
      ghost var s0 := Scan();
      mode, token, overflow, scalarPath := InScalar, "", false, path;
      assert Scan() == s0.(mode := InScalar, token := "", overflow := false, scalarPath := path);
      AppendToken(b);
    }

    /** The start of a value: the end of step. */
    method StartValue(b: char) returns (ok: bool)
      modifies this
      ensures Follows(ok, Sees(JsonScanner.StartValue(old(Scan()), b), old(Kept())))
    {
      hide Joint, Kept, Append, JsonScanner.BeginString, ValuePath;
      ghost var s0, k0 := Scan(), Kept();
      var path := ValuePath(stack);
      if (b == '{' || b == '[') && |stack| < MAX_DEPTH && (root || b == '{') {
        ok := OpenAt(path, b);
        return;
      }
      JointQuiet(operation, requirements, JsonScanner.StartValue(s0, b), k0);
      if b == '{' || b == '[' || !root { return false; }
      if b == '"' {
        BeginString(false, path);
        return true;
      }
      if StartsScalar(b) {
        BeginScalar(path, b);
        return true;
      }
      return false;
    }

    /** A byte of an escape sequence. */
    method StepEscape(b: char) returns (ok: bool)
      requires unicode > 0 || escape
      modifies `unicode, `escape, `token, `overflow
      ensures ok == JsonScanner.StepString(old(Scan()), b).Advance?
      ensures ok ==> JsonScanner.StepString(old(Scan()), b) == Machines.Advance(Scan(), [])
    {
      hide Append;
      ghost var s0 := Scan();
      if unicode > 0 {
        if !IsHex(b) { return false; }
        unicode := unicode - 1;
        assert Scan() == s0.(unicode := unicode);
      } else {
        escape := false;
        if b == 'u' {
          unicode := 4;
        } else if !IsSimpleEscape(b) {
          return false;
        }
        assert Scan() == s0.(escape := false, unicode := unicode);
      }
      AppendToken(b);
      return true;
    }

    method StepString(b: char) returns (ok: bool)
      modifies this
      ensures Follows(ok, Sees(JsonScanner.StepString(old(Scan()), b), old(Kept())))
    {
      hide Joint, Kept, Append, JsonScanner.FinishString, IsHex, IsSimpleEscape;
      ghost var s0, k0 := Scan(), Kept();
      if unicode == 0 && !escape && b == '"' {
        ok := FinishString();
        return;
      }
      JointQuiet(operation, requirements, JsonScanner.StepString(s0, b), k0);
      if unicode > 0 || escape {
        ok := StepEscape(b);
        return;
      }
      if b == '\\' {
        escape := true;
        assert Scan() == s0.(escape := true);
      } else if b < ' ' {
        return false;
      }
      AppendToken(b);
      return true;
    }

    /** After a value: a comma, or the end. */
    method StepComma(b: char) returns (ok: bool)
      requires mode == Between && !IsBlank(b) && !done && |stack| > 0 && stack[|stack| - 1].state == ','
      modifies this
      ensures Follows(ok, Sees(JsonScanner.StepBetween(old(Scan()), b), old(Kept())))
    {
      hide Watcher, Machines.Run, Kept, JsonScanner.StartValue, CloseTop, JsonScanner.BeginString, SetState;
      var f := stack[|stack| - 1];
      WatchNothing(operation, requirements, Kept());
      if b == ',' {
        SetTopState(if f.kind == '{' then 'k' else 'v');
        return true;
      }
      if (b == '}' && f.kind == '{') || (b == ']' && f.kind == '[') {
        ok := Close();
        return;
      }
      return false;
    }

    /** Where a key is expected. */
    method StepKey(b: char) returns (ok: bool)
      requires mode == Between && !IsBlank(b) && !done && |stack| > 0 && stack[|stack| - 1].state in {'k', 'K'}
      modifies this
      ensures Follows(ok, Sees(JsonScanner.StepBetween(old(Scan()), b), old(Kept())))
    {
      hide Watcher, Machines.Run, Kept, JsonScanner.StartValue, CloseTop, JsonScanner.BeginString, SetState;
      WatchNothing(operation, requirements, Kept());
      if b == '}' && stack[|stack| - 1].state == 'K' {
        ok := Close();
        return;
      }
      if b != '"' { return false; }
      BeginString(true, "");
      return true;
    }

    method StepBetween(b: char) returns (ok: bool)
      requires mode == Between
      modifies this
      ensures Follows(ok, Sees(JsonScanner.StepBetween(old(Scan()), b), old(Kept())))
    {
      hide Watcher, Machines.Run, Kept, JsonScanner.StartValue, CloseTop, JsonScanner.BeginString, SetState;
      ghost var s0, k0 := Scan(), Kept();
      WatchNothing(operation, requirements, k0);
      if IsBlank(b) { return true; }
      if done { return false; }
      if |stack| > 0 {
        var f := stack[|stack| - 1];
        if f.state == ',' {
          ok := StepComma(b);
          return;
        }
        if f.state == ':' {
          if b != ':' { return false; }
          SetTopState('v');
          return true;
        }
        if f.state == 'k' || f.state == 'K' {
          ok := StepKey(b);
          return;
        }
        if f.state == 'V' && b == ']' {
          ok := Close();
          return;
        }
      }
      ok := StartValue(b);
    }

    method Step(b: char) returns (ok: bool)
      modifies this
      ensures Follows(ok, CheckByte(operation, requirements, old(State()), b))
    {
      hide Watcher, Machines.Run, JsonScanner.StepString, JsonScanner.StepBetween, JsonScanner.FinishScalar, Append;
      ghost var s0, k0 := Scan(), Kept();
      match mode {
        case InString =>
          ok := StepString(b);
        case Between =>
          ok := StepBetween(b);
        case InScalar =>
          if IsDelimiter(b) {
            JointScalar(operation, requirements, s0, k0, b);
            ScalarLeavesMode(s0);
            ok := ScalarDone();
            if ok { ok := StepBetween(b); }
          } else {
            WatchNothing(operation, requirements, k0);
            AppendToken(b);
            ok := true;
          }
      }
    }

    method Feed(data: bytes) returns (ok: bool)
      modifies this
      ensures Follows(ok, CheckText(operation, requirements, old(State()), data))
    {
      hide CheckByte, CheckText, Scan, Kept;
      ghost var c0 := State();
      assert CheckText(operation, requirements, c0, []) == Machines.Advance(c0, []) by { CheckNothing(operation, requirements, c0); }
      var i := 0;
      while i < |data|
        invariant 0 <= i <= |data|
        invariant Follows(true, CheckText(operation, requirements, c0, data[..i]))
      {
        CheckMore(operation, requirements, c0, data[..i], data[i]);
        assert data[..i] + [data[i]] == data[..i + 1];
        ok := Step(data[i]);
        i := i + 1;
        if !ok {
          CheckRejects(operation, requirements, c0, data, i);
          return;
        }
      }
      assert data[..i] == data;
      ok := true;
    }

    /** finish: whether the text read so far is a whole document. */
    method Finish() returns (ok: bool)
      requires Sound(Scan())
      modifies this
      ensures ok <==> FinishedAtEnd(old(Scan()))
      ensures ok ==> Kept() == old(Kept())
    {
      hide Watcher, Machines.Run, Kept, ScalarToken;
      if mode == InScalar {
        ok := ScalarDone();
        if !ok { return; }
      }
      ok := mode == Between && done && |stack| == 0;
    }
  }
}
