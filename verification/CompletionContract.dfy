/** What the completion checker concludes from the values of a buffered answer. */
module CompletionContract {
  // A stack of result frames beside the scanner's stack, a few counters, and the verdict at the
  // end.  The operations modelled are Chat, Responses and Messages.

  import opened GoText
  import opened JsonScanner
  import opened Machines
  import opened Places

  datatype Operation = Chat | Responses | Messages

  datatype ToolMode = Unspecified | AutoTools | NoTools | RequiredTools

  /** The promises a client request makes about its answer. `maxToolCalls` is 0 when
      parallel calls are allowed. */
  datatype Requirements = Requirements(
    expectedChoices: nat, toolMode: ToolMode, toolName: string, toolNames: Option<set<string>>, maxToolCalls: nat)

  const MAX_CHOICES: nat := 128
  const MAX_TOOLS: nat := 128
  const MAX_IDENTITY: nat := 256

  /** What request parsing guarantees: n is between 1 and 128, or 0 when unchecked. */
  predicate BoundedRequirements(r: Requirements) {
    r.expectedChoices <= MAX_CHOICES
  }

  predicate AcceptsTool(r: Requirements, name: string) {
    r.toolMode != NoTools && name != "" && (r.toolName != "" ==> r.toolName == name)
    && (r.toolNames.Some? ==> name in r.toolNames.value)
  }

  /** validToolArguments: the text of a complete JSON object. */
  predicate ValidArguments(value: bytes) {
    var raw := TrimSpace(value);
    |raw| > 0 && raw[0] == '{' && |raw| <= MAX_ARGUMENTS && Accepts(raw)
  }

  // ---- State --------------------------------------------------------------------------

  datatype ResultFrame = ResultFrame(
    place: Place, kind: char, finished: bool, message: bool,
    index: int, indexed: bool, name: string, id: string, callId: string, role: string, finish: string,
    arguments: bool, payload: bool, tools: nat)

  function NewFrame(place: Place, kind: char): ResultFrame {
    ResultFrame(place, kind, false, false, 0, false, "", "", "", "", "", false, false, 0)
  }

  datatype Contract = Contract(
    frames: seq<ResultFrame>,
    choices: nat, finishedChoices: nat, tools: nat, toolCount: nat, toolIds: set<string>, seen: set<int>,
    output: bool, content: bool, tokenCount: bool,
    failed: bool, terminal: bool, stopReason: string)

  const FRESH := Contract([], 0, 0, 0, 0, {}, {}, false, false, false, false, false, "")

  type Verdict = Machines.Outcome<Contract, ()>

  function Top(c: Contract): ResultFrame
    requires |c.frames| > 0
  {
    c.frames[|c.frames| - 1]
  }

  function WithTop(c: Contract, f: ResultFrame): Contract
    requires |c.frames| > 0
  {
    c.(frames := c.frames[..|c.frames| - 1] + [f])
  }

  /** The innermost open frame at a place, or -1. */
  function Nearest(frames: seq<ResultFrame>, place: Place): (n: int)
    ensures -1 <= n < |frames|
    ensures n >= 0 ==> frames[n].place == place
  {
    if |frames| == 0 then -1
    else if frames[|frames| - 1].place == place then |frames| - 1
    else Nearest(frames[..|frames| - 1], place)
  }

  // ---- A container opens -----------------------------------------------------------------

  predicate ForbiddenContainer(op: Operation, place: Place, kind: char) {
    (place in {FunctionArguments, LegacyArguments} && op == Chat) || (place == OutputArguments && op == Responses)
    || (kind != '{' && ItemMustBeObject(op, place))
  }

  predicate ItemMustBeObject(op: Operation, place: Place) {
    (place == Choice && op == Chat) || (place == OutputItem && op == Responses) || (place == Block && op == Messages)
  }

  function OpenParent(f: ResultFrame, place: Place, kind: char): ResultFrame {
    if kind != '{' then f
    else f.(message := f.message || place == Message, arguments := f.arguments || place == BlockInput)
  }

  function ObserveOpen(op: Operation, c: Contract, place: Place): Contract {
    match place
    case Error => c.(failed := true)
    case Status => if op == Responses then c.(terminal := false) else c
    case StopReason => if op == Messages then c.(terminal := false, stopReason := "") else c
    case _ => c
  }

  /** The frame of a container that opens, and what its parent and the totals note. */
  function Entered(c: Contract, place: Place, kind: char): Contract {
    var parents := if |c.frames| == 0 then [] else WithTop(c, OpenParent(Top(c), place, kind)).frames;
    c.(frames := parents + [NewFrame(place, kind)],
       choices := if place == Choice && kind == '{' then c.choices + 1 else c.choices,
       output := c.output || (place == Output && kind == '['),
       content := c.content || (place == Content && kind == '['))
  }

  function Open(op: Operation, c: Contract, place: Place, kind: char): Verdict {
    if ForbiddenContainer(op, place, kind) then Reject else Advance(ObserveOpen(op, Entered(c, place, kind), place), [])
  }

  // ---- A leaf ---------------------------------------------------------------------------------

  predicate IsIdentityFrame(place: Place) {
    place in {ToolCall, Function, Legacy, OutputItem, Block}
  }

  predicate OversizedIdentity(f: ResultFrame, key: string, value: bytes, kind: char, overflow: bool) {
    IsIdentityFrame(f.place) && key in {"id", "name", "call_id"} && kind == 's' && (overflow || |value| > MAX_IDENTITY)
  }

  /** A non-negative integer that strconv.Atoi reads. */
  function Count(value: bytes, kind: char): Option<int> {
    if kind == 'v' && Atoi(value).Some? && Atoi(value).value >= 0 then Atoi(value) else None
  }

  function Remember(key: string, value: bytes, kind: char, field: string, current: string): string {
    if key == field && kind == 's' then value else current
  }

  /** Fields are remembered by key, whatever frame they are in. */
  function Note(f: ResultFrame, key: string, value: bytes, kind: char): ResultFrame {
    var counted := key == "index" && Count(value, kind).Some?;
    f.(index := if counted then Count(value, kind).value else f.index,
       indexed := f.indexed || counted,
       role := Remember(key, value, kind, "type", f.role),
       name := Remember(key, value, kind, "name", f.name),
       id := Remember(key, value, kind, "id", f.id),
       callId := Remember(key, value, kind, "call_id", f.callId),
       finish := Remember(key, value, kind, "finish_reason", f.finish))
  }

  predicate IsArguments(op: Operation, place: Place) {
    (op == Chat && place in {FunctionArguments, LegacyArguments}) || (op == Responses && place == OutputArguments)
  }

  predicate ForbiddenLeaf(op: Operation, f: ResultFrame, place: Place, key: string, value: bytes, kind: char, overflow: bool) {
    OversizedIdentity(f, key, value, kind, overflow)
    || (key == "index" && f.place == Choice && Count(value, kind).None?)
    || (IsArguments(op, place) && (kind != 's' || !ValidArguments(value)))
    || ItemMustBeObject(op, place)
  }

  predicate IsPayload(place: Place, value: bytes, kind: char) {
    kind == 's' && (place in {MessageContent, Refusal, BlockText, BlockThinking, BlockData, OutputText, OutputRefusal}
                    || (place == OutputEncrypted && value != ""))
  }

  function LeafFrame(op: Operation, f: ResultFrame, place: Place, key: string, value: bytes, kind: char): ResultFrame {
    var noted := Note(f, key, value, kind);
    noted.(payload := f.payload || IsPayload(place, value, kind),
           arguments := f.arguments || IsArguments(op, place),
           finished := if place == FinishReason then kind == 's' && value != "" else f.finished)
  }

  function ObserveLeaf(op: Operation, c: Contract, place: Place, value: bytes, kind: char): Contract {
    match place
    case Error => c.(failed := c.failed || kind != 'n')
    case Status =>
      if op == Responses
      then c.(terminal := kind == 's' && value == "completed", failed := c.failed || value in {"failed", "incomplete", "cancelled"})
      else c
    case StopReason => if op == Messages then c.(terminal := kind == 's' && value != "", stopReason := value) else c
    case InputTokens => c.(tokenCount := c.tokenCount || Count(value, kind).Some?)
    case _ => c
  }

  function AtLeaf(op: Operation, c: Contract, place: Place, key: string, value: bytes, kind: char, overflow: bool): Verdict {
    if |c.frames| == 0 then Reject
    else if ForbiddenLeaf(op, Top(c), place, key, value, kind, overflow) then Reject
    else Advance(ObserveLeaf(op, WithTop(c, LeafFrame(op, Top(c), place, key, value, kind)), place, value, kind), [])
  }

  // ---- A container closes -----------------------------------------------------------------------

  function RecordTool(c: Contract, id: string): Verdict {
    if c.toolCount + 1 > MAX_TOOLS || (id != "" && id in c.toolIds) then Reject
    else Advance(c.(toolCount := c.toolCount + 1, toolIds := if id == "" then c.toolIds else c.toolIds + {id}), [])
  }

  function Update(c: Contract, place: Place, change: ResultFrame -> ResultFrame): Contract {
    var n := Nearest(c.frames, place);
    if n < 0 then c else c.(frames := c.frames[n := change(c.frames[n])])
  }

  function CloseCall(req: Requirements, c: Contract, f: ResultFrame): Verdict {
    var legacy := f.place == Legacy;
    if f.name == "" || !f.arguments || (!legacy && (f.id == "" || f.role != "function")) || !AcceptsTool(req, f.name) then Reject
    else
      match RecordTool(c, if legacy then "" else f.id)
      case Reject => Reject
      case Advance(c1, _) => Advance(Update(c1, Message, (p: ResultFrame) => p.(tools := p.tools + 1, payload := true)), [])
  }

  function CloseChoice(req: Requirements, c: Contract, f: ResultFrame): Verdict {
    var called := f.finish == "tool_calls" || f.finish == "function_call";
    if (req.maxToolCalls > 0 && f.tools > req.maxToolCalls) || !f.payload then Reject
    else if req.expectedChoices > 0
         && ((!f.indexed && req.expectedChoices > 1) || f.index >= req.expectedChoices || f.index in c.seen) then Reject
    else if (f.tools > 0 && !called) || ((called || req.toolMode == RequiredTools) && f.tools == 0) then Reject
    else Advance(c.(seen := if req.expectedChoices > 0 then c.seen + {f.index} else c.seen,
                    finishedChoices := c.finishedChoices + (if f.finished && f.message then 1 else 0)), [])
  }

  function CloseOutputItem(req: Requirements, c: Contract, f: ResultFrame): Verdict {
    if f.role == "function_call" then
      if f.name == "" || f.callId == "" || !f.arguments || !AcceptsTool(req, f.name) then Reject
      else
        match RecordTool(c, f.callId)
        case Reject => Reject
        case Advance(c1, _) => Advance(c1.(tools := c1.tools + 1), [])
    else if f.role == "" || (f.role == "message" && !f.payload) then Reject
    else Advance(c, [])
  }

  function CloseBlock(req: Requirements, c: Contract, f: ResultFrame): Verdict {
    if f.role == "tool_use" then
      if f.name == "" || f.id == "" || !f.arguments || !AcceptsTool(req, f.name) then Reject
      else
        match RecordTool(c, f.id)
        case Reject => Reject
        case Advance(c1, _) => Advance(c1.(tools := c1.tools + 1), [])
    else if !f.payload then Reject
    else Advance(c, [])
  }

  /** `c` no longer has the frame `f` that closes. */
  function CloseFrame(op: Operation, req: Requirements, c: Contract, f: ResultFrame): Verdict {
    match f.place
    case Function => Advance(Update(c, ToolCall, (p: ResultFrame) => p.(name := f.name, arguments := f.arguments)), [])
    case ToolCall => CloseCall(req, c, f)
    case Legacy => CloseCall(req, c, f)
    case Message =>
      if !f.payload then Reject
      else Advance(Update(c, Choice, (p: ResultFrame) => p.(tools := f.tools, payload := true)), [])
    case Choice => CloseChoice(req, c, f)
    case OutputPart =>
      if op != Responses then Advance(c, [])
      else if !f.payload || (f.role != "output_text" && f.role != "refusal") then Reject
      else Advance(Update(c, OutputItem, (p: ResultFrame) => p.(payload := true)), [])
    case OutputItem => if op == Responses then CloseOutputItem(req, c, f) else Advance(c, [])
    case Block => if op == Messages then CloseBlock(req, c, f) else Advance(c, [])
    case _ => Advance(c, [])
  }

  function Close(op: Operation, req: Requirements, c: Contract): Verdict {
    if |c.frames| == 0 then Reject
    else CloseFrame(op, req, c.(frames := c.frames[..|c.frames| - 1]), Top(c))
  }

  // ---- Events and the verdict -----------------------------------------------------------------------

  function Apply(op: Operation, req: Requirements, c: Contract, e: Event): Verdict {
    match e
    case Opened(path, kind) => Open(op, c, PlaceOf(path), kind)
    case Leaf(path, key, value, kind, overflow) => AtLeaf(op, c, PlaceOf(path), key, value, kind, overflow)
    case Closed(_, _) => Close(op, req, c)
  }

  function Applier(op: Operation, req: Requirements): (Contract, Event) -> Verdict {
    (c, e) => Apply(op, req, c, e)
  }

  function Observe(op: Operation, req: Requirements, c: Contract, events: seq<Event>): Verdict {
    Machines.Run(Applier(op, req), c, events)
  }

  /** The checks of Finish once the document is complete. `countTokens` is set on the
      token-counting endpoint. */
  predicate Satisfied(op: Operation, req: Requirements, countTokens: bool, c: Contract) {
    !c.failed &&
    match op
    case Chat =>
      c.choices > 0 && c.finishedChoices == c.choices && (req.expectedChoices > 0 ==> c.choices == req.expectedChoices)
    case Responses =>
      c.terminal && c.output && (req.maxToolCalls > 0 ==> c.tools <= req.maxToolCalls)
      && (req.toolMode == RequiredTools ==> c.tools > 0)
    case Messages =>
      if countTokens then c.tokenCount
      else c.terminal && c.content && (req.maxToolCalls > 0 ==> c.tools <= req.maxToolCalls)
           && (c.tools > 0 <==> c.stopReason == "tool_use") && (req.toolMode == RequiredTools ==> c.tools > 0)
  }

  /** The verdict on a whole buffered body. */
  predicate AcceptsBody(op: Operation, req: Requirements, countTokens: bool, body: bytes) {
    match JsonScanner.Run(START, body)
    case Reject => false
    case Advance(s, events) =>
      FinishedAtEnd(s) &&
      match Observe(op, req, FRESH, events)
      case Reject => false
      case Advance(c, _) => Satisfied(op, req, countTokens, c)
  }

  // ---- Indexes stay in range -------------------------------------------------------------------------

  /** No choice index is negative, and those noted as seen are below the number asked for. */
  predicate IndexesInRange(c: Contract, limit: nat) {
    (forall k :: 0 <= k < |c.frames| ==> c.frames[k].index >= 0) && forall i :: i in c.seen ==> 0 <= i < limit
  }

  lemma NoteInRange(f: ResultFrame, key: string, value: bytes, kind: char)
    requires f.index >= 0
    ensures Note(f, key, value, kind).index >= 0
  {
    hide Atoi;
  }

  lemma UpdateInRange(c: Contract, place: Place, change: ResultFrame -> ResultFrame, limit: nat)
    requires IndexesInRange(c, limit) && forall f :: change(f).index == f.index
    ensures IndexesInRange(Update(c, place, change), limit)
  {
  }

  lemma CloseCallInRange(req: Requirements, c: Contract, f: ResultFrame, limit: nat)
    requires IndexesInRange(c, limit) && CloseCall(req, c, f).Advance?
    ensures IndexesInRange(CloseCall(req, c, f).next, limit)
  {
    hide AcceptsTool, Update;
    var change := (p: ResultFrame) => p.(tools := p.tools + 1, payload := true);
    var c1 := RecordTool(c, if f.place == Legacy then "" else f.id).next;
    assert IndexesInRange(c1, limit);
    UpdateInRange(c1, Message, change, limit);
  }

  lemma CloseItemsInRange(req: Requirements, c: Contract, f: ResultFrame, limit: nat)
    requires IndexesInRange(c, limit)
    ensures CloseOutputItem(req, c, f).Advance? ==> IndexesInRange(CloseOutputItem(req, c, f).next, limit)
    ensures CloseBlock(req, c, f).Advance? ==> IndexesInRange(CloseBlock(req, c, f).next, limit)
  {
    hide AcceptsTool;
  }

  lemma CloseChoiceInRange(req: Requirements, c: Contract, f: ResultFrame)
    requires IndexesInRange(c, req.expectedChoices) && f.index >= 0 && CloseChoice(req, c, f).Advance?
    ensures IndexesInRange(CloseChoice(req, c, f).next, req.expectedChoices)
  {
  }

  lemma CloseFrameInRange(op: Operation, req: Requirements, c: Contract, f: ResultFrame)
    requires IndexesInRange(c, req.expectedChoices) && f.index >= 0 && CloseFrame(op, req, c, f).Advance?
    ensures IndexesInRange(CloseFrame(op, req, c, f).next, req.expectedChoices)
  {
    hide CloseCall, CloseChoice, CloseOutputItem, CloseBlock, Update, IndexesInRange;
    var limit := req.expectedChoices;
    match f.place {
      case Function => UpdateInRange(c, ToolCall, (p: ResultFrame) => p.(name := f.name, arguments := f.arguments), limit);
      case ToolCall => CloseCallInRange(req, c, f, limit);
      case Legacy => CloseCallInRange(req, c, f, limit);
      case Message => UpdateInRange(c, Choice, (p: ResultFrame) => p.(tools := f.tools, payload := true), limit);
      case Choice => CloseChoiceInRange(req, c, f);
      case OutputPart => UpdateInRange(c, OutputItem, (p: ResultFrame) => p.(payload := true), limit);
      case OutputItem => CloseItemsInRange(req, c, f, limit);
      case Block => CloseItemsInRange(req, c, f, limit);
      case _ =>
    }
  }

  lemma ObserveOpenKeeps(op: Operation, c: Contract, place: Place)
    ensures ObserveOpen(op, c, place).frames == c.frames && ObserveOpen(op, c, place).seen == c.seen
  {
  }

  lemma PushedInRange(c: Contract, place: Place, kind: char)
    requires forall k :: 0 <= k < |c.frames| ==> c.frames[k].index >= 0
    ensures var parents := if |c.frames| == 0 then [] else WithTop(c, OpenParent(Top(c), place, kind)).frames;
      forall k :: 0 <= k <= |parents| ==> (parents + [NewFrame(place, kind)])[k].index >= 0
  {
  }

  lemma OpenInRange(op: Operation, c: Contract, place: Place, kind: char, limit: nat)
    requires IndexesInRange(c, limit) && Open(op, c, place, kind).Advance?
    ensures IndexesInRange(Open(op, c, place, kind).next, limit)
  {
    PushedInRange(c, place, kind);
    hide ForbiddenContainer, ObserveOpen, OpenParent, NewFrame, WithTop;
    forall d: Contract { ObserveOpenKeeps(op, d, place); }
  }

  lemma LeafInRange(op: Operation, c: Contract, place: Place, key: string, value: bytes, kind: char, overflow: bool, limit: nat)
    requires IndexesInRange(c, limit) && AtLeaf(op, c, place, key, value, kind, overflow).Advance?
    ensures IndexesInRange(AtLeaf(op, c, place, key, value, kind, overflow).next, limit)
  {
    hide ForbiddenLeaf, Note, IsPayload, Count;
    NoteInRange(Top(c), key, value, kind);
  }

  lemma ApplyInRange(op: Operation, req: Requirements, c: Contract, e: Event)
    requires IndexesInRange(c, req.expectedChoices) && Apply(op, req, c, e).Advance?
    ensures IndexesInRange(Apply(op, req, c, e).next, req.expectedChoices)
  {
    hide CloseFrame, Open, AtLeaf, PlaceOf;
    match e {
      case Opened(path, kind) => OpenInRange(op, c, PlaceOf(path), kind, req.expectedChoices);
      case Leaf(path, key, value, kind, overflow) => LeafInRange(op, c, PlaceOf(path), key, value, kind, overflow, req.expectedChoices);
      case Closed(_, _) => CloseFrameInRange(op, req, c.(frames := c.frames[..|c.frames| - 1]), Top(c));
    }
  }

  /** The array of seen choices has 128 places, and is never indexed outside of them. */
  lemma {:induction false} SeenInRange(op: Operation, req: Requirements, events: seq<Event>)
    requires BoundedRequirements(req) && Observe(op, req, FRESH, events).Advance?
    ensures var c := Observe(op, req, FRESH, events).next;
      IndexesInRange(c, req.expectedChoices)
      && forall k :: 0 <= k < |c.frames| && c.frames[k].index < req.expectedChoices ==> 0 <= c.frames[k].index < MAX_CHOICES
  {
    if |events| > 0 {
      hide Apply;
      SeenInRange(op, req, events[..|events| - 1]);
      ApplyInRange(op, req, Observe(op, req, FRESH, events[..|events| - 1]).next, events[|events| - 1]);
    }
  }
}
