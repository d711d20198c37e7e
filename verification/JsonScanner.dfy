/**
  The byte-at-a-time push-down scanner of the completion checker: a bounded stack of open
  objects and arrays, the current token, and what the scanner reports to its observers.
  Nothing here looks at the meaning of a document; that is module CompletionContract.
 */
module JsonScanner {
  import opened GoText
  import opened JsonGrammar
  import opened Machines

  /** What is being read: the space between tokens, a string, or a number or literal. */
  datatype Mode = Between | InString | InScalar

  /** An open object or array. `state` says what may follow, with the letters of the
      gateway: K first key or end, k key, ':' colon, v value, V first item or end, ','
      comma or end. `fields` holds the tracked names seen so far. */
  datatype Frame = Frame(kind: char, state: char, path: string, key: string, fields: set<string>)

  datatype Scanner = Scanner(
    stack: seq<Frame>, mode: Mode, token: bytes, overflow: bool, escape: bool, unicode: nat,
    key: bool, scalarPath: string, root: bool, done: bool)

  /** What observers are told, in document order. A leaf carries the path and key it was
      read under and its kind: 's' string, 'n' null, 'v' any other scalar. */
  datatype Event =
    | Opened(path: string, kind: char)
    | Leaf(path: string, key: string, value: bytes, kind: char, overflow: bool)
    | Closed(path: string, kind: char)

  type Outcome = Machines.Outcome<Scanner, Event>

  const START := Scanner([], Between, "", false, false, 0, false, "", false, false)

  // ---- Paths and token limits ----------------------------------------------------

  function FieldPath(path: string, key: string): string {
    if path != "" then path + "." + key else key
  }

  function ItemPath(path: string): string {
    path + "[]"
  }

  function ValuePath(stack: seq<Frame>): string {
    if |stack| == 0 then ""
    else
      var top := stack[|stack| - 1];
      if top.kind == '{' then FieldPath(top.path, top.key) else ItemPath(top.path)
  }

  predicate EndsWith(s: string, suffix: string) {
    |suffix| <= |s| && s[|s| - |suffix|..] == suffix
  }

  const MAX_ARGUMENTS: nat := 1048576

  /** completionStringLimit: only tool arguments may be longer than 512 bytes. */
  function StringLimit(path: string, key: bool): nat {
    if !key && (EndsWith(path, ".function.arguments") || path == "choices[].message.function_call.arguments"
                || path == "output[].arguments")
    then MAX_ARGUMENTS else MAX_TOKEN
  }

  /** A key with a dot or bracket must not look like a structural path. */
  function StoredKey(name: string): string {
    if exists i :: 0 <= i < |name| && (name[i] == '.' || name[i] == '[' || name[i] == ']') then "/" + name else name
  }

  // ---- One byte --------------------------------------------------------------------

  function Append(s: Scanner, b: char): Scanner {
    if |s.token| < StringLimit(s.scalarPath, s.key) then s.(token := s.token + [b]) else s.(overflow := true)
  }

  function SetTop(stack: seq<Frame>, top: Frame): seq<Frame>
    requires |stack| > 0
  {
    stack[..|stack| - 1] + [top]
  }

  function SetState(stack: seq<Frame>, state: char): seq<Frame>
    requires |stack| > 0
  {
    SetTop(stack, stack[|stack| - 1].(state := state))
  }

  function ValueDone(s: Scanner): Scanner {
    if |s.stack| == 0 then s.(done := true) else s.(stack := SetState(s.stack, ','))
  }

  function TopKey(stack: seq<Frame>): string {
    if |stack| == 0 then "" else stack[|stack| - 1].key
  }

  function BeginString(s: Scanner, key: bool, path: string): Scanner {
    s.(mode := InString, key := key, scalarPath := path, token := "", overflow := false)
  }

  /** The value reported for a string that is not a key. */
  function ObservedString(token: bytes, overflow: bool): bytes {
    if overflow then "\0" else Unquote(token)
  }

  function FinishKey(s: Scanner): Outcome {
    if |s.stack| == 0 then Reject
    else
      var name := if s.overflow then "" else Unquote(s.token);
      var top := s.stack[|s.stack| - 1];
      if name in top.fields then Reject
      else
        var fields := top.fields + (if Tracked(name) then {name} else {});
        Advance(s.(mode := Between,
                   stack := SetTop(s.stack, top.(fields := fields, key := StoredKey(name), state := ':'))), [])
  }

  function FinishString(s: Scanner): Outcome {
    if s.key then FinishKey(s)
    else Advance(ValueDone(s.(mode := Between)),
                 [Leaf(s.scalarPath, TopKey(s.stack), ObservedString(s.token, s.overflow), 's', s.overflow)])
  }

  function StepString(s: Scanner, b: char): Outcome {
    if s.unicode > 0 then
      if IsHex(b) then Advance(Append(s.(unicode := s.unicode - 1), b), []) else Reject
    else if s.escape then
      if b == 'u' then Advance(Append(s.(escape := false, unicode := 4), b), [])
      else if IsSimpleEscape(b) then Advance(Append(s.(escape := false), b), [])
      else Reject
    else if b == '\\' then Advance(Append(s.(escape := true), b), [])
    else if b == '"' then FinishString(s)
    else if b < ' ' then Reject
    else Advance(Append(s, b), [])
  }

  function FinishScalar(s: Scanner): Outcome {
    if s.overflow || !ScalarToken(s.token) then Reject
    else Advance(ValueDone(s.(mode := Between)),
                 [Leaf(s.scalarPath, TopKey(s.stack), s.token, if s.token == "null" then 'n' else 'v', false)])
  }

  function CloseTop(s: Scanner): Outcome {
    if |s.stack| == 0 then Reject
    else
      var top := s.stack[|s.stack| - 1];
      Advance(ValueDone(s.(stack := s.stack[..|s.stack| - 1])), [Closed(top.path, top.kind)])
  }

  /** A value starts here. */
  function StartValue(s: Scanner, b: char): Outcome {
    var path := ValuePath(s.stack);
    if b == '{' || b == '[' then
      if |s.stack| >= MAX_DEPTH || (!s.root && b != '{') then Reject
      else Advance(s.(root := true, stack := s.stack + [Frame(b, if b == '[' then 'V' else 'K', path, "", {})]),
                   [Opened(path, b)])
    else if !s.root then Reject
    else if b == '"' then Advance(BeginString(s, false, path), [])
    else if StartsScalar(b) then
      Advance(Append(s.(mode := InScalar, token := "", overflow := false, scalarPath := path), b), [])
    else Reject
  }

  function StepBetween(s: Scanner, b: char): Outcome {
    if IsBlank(b) then Advance(s, [])
    else if s.done then Reject
    else if |s.stack| == 0 then StartValue(s, b)
    else
      var top := s.stack[|s.stack| - 1];
      if top.state == ',' then
        if b == ',' then Advance(s.(stack := SetState(s.stack, if top.kind == '{' then 'k' else 'v')), [])
        else if (b == '}' && top.kind == '{') || (b == ']' && top.kind == '[') then CloseTop(s)
        else Reject
      else if top.state == ':' then
        if b == ':' then Advance(s.(stack := SetState(s.stack, 'v')), []) else Reject
      else if top.state == 'k' || top.state == 'K' then
        if b == '}' && top.state == 'K' then CloseTop(s)
        else if b == '"' then Advance(BeginString(s, true, ""), [])
        else Reject
      else if top.state == 'V' && b == ']' then CloseTop(s)
      else StartValue(s, b)
  }

  function Step(s: Scanner, b: char): Outcome {
    match s.mode
    case InString => StepString(s, b)
    case InScalar =>
      if IsDelimiter(b) then
        match FinishScalar(s)
        case Reject => Reject
        case Advance(s1, e1) => Prefixed(e1, StepBetween(s1, b))
      else Advance(Append(s, b), [])
    case Between => StepBetween(s, b)
  }

  // ---- Whole texts -------------------------------------------------------------------

  function Run(s: Scanner, text: bytes): Outcome {
    Machines.Run(Step, s, text)
  }

  /** End of input: a pending number or literal is finished, and the document must be too. */
  predicate Finished(s: Scanner) {
    s.mode == Between && s.done && |s.stack| == 0
  }

  function Settle(s: Scanner): Outcome {
    if s.mode == InScalar then FinishScalar(s) else Advance(s, [])
  }

  predicate FinishedAtEnd(s: Scanner) {
    match Settle(s)
    case Reject => false
    case Advance(s1, _) => Finished(s1)
  }

  predicate Accepts(text: bytes) {
    match Run(START, text)
    case Reject => false
    case Advance(s, _) => FinishedAtEnd(s)
  }
}
