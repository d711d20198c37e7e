/** What a complete Chat answer looks like, as a predicate on its syntax tree. */
module ChatDocument {
  // Nothing here refers to a scan: these are lookups by member name.  Where an object repeats
  // an untracked name, or a call carries its name twice, the last occurrence counts, as it does
  // on the wire.  The checker also looks at `choices` in the answers to other operations, so
  // what depends on the operation has it as a parameter.

  import opened GoText
  import opened JsonGrammar
  import opened JsonScanner
  import opened CompletionContract
  import opened JsonReading

  predicate IsLeaf(v: Value) {
    v.Lit? || v.Str?
  }

  /** A string as the checker remembers it: not at all beyond 512 raw bytes. */
  function Shown(body: bytes): bytes {
    ObservedString(body, |body| > MAX_TOKEN)
  }

  // ---- Lookups ---------------------------------------------------------------------------

  /** The string member `name`, or `default`. */
  function StringAt(ms: Members, name: string, default: string): string {
    match ms
    case NoMembers => default
    case AddMember(front, _, key, _, _, value, _) =>
      if NameOf(key) == name && value.Str? then Shown(value.body) else StringAt(front, name, default)
  }

  /** The member `index` when it is a non-negative integer. */
  function IndexAt(ms: Members): Option<int> {
    match ms
    case NoMembers => None
    case AddMember(front, _, key, _, _, value, _) =>
      if NameOf(key) == "index" && value.Lit? && Count(value.token, LitKind(value.token)).Some?
      then Count(value.token, LitKind(value.token)) else IndexAt(front)
  }

  function LitKind(token: bytes): char {
    if token == "null" then 'n' else 'v'
  }

  predicate HasMember(ms: Members, name: string) {
    ms.AddMember? && (NameOf(ms.key) == name || HasMember(ms.front, name))
  }

  /** Tool identities have at most 256 bytes. */
  predicate ShortIdentities(ms: Members) {
    match ms
    case NoMembers => true
    case AddMember(front, _, key, _, _, value, _) =>
      ShortIdentities(front)
      && (NameOf(key) in {"id", "name", "call_id"} && value.Str? ==> |value.body| <= MAX_TOKEN && |Unquote(value.body)| <= MAX_IDENTITY)
  }

  // ---- Function calls ----------------------------------------------------------------------

  /** Every `arguments` member is a string holding a complete JSON object. */
  predicate ArgumentsComplete(ms: Members) {
    match ms
    case NoMembers => true
    case AddMember(front, _, key, _, _, value, _) =>
      ArgumentsComplete(front)
      && (NameOf(key) == "arguments" ==> value.Str? && |value.body| <= MAX_ARGUMENTS && ValidArguments(Unquote(value.body)))
  }

  /** Only a Chat answer's arguments are looked at; elsewhere no call can be complete. */
  predicate FunctionGood(op: Operation, ms: Members) {
    ShortIdentities(ms) && (op == Chat ==> ArgumentsComplete(ms))
  }

  function FunctionName(v: Value): string {
    if v.Obj? then StringAt(v.members, "name", "") else ""
  }

  predicate FunctionArguments(op: Operation, v: Value) {
    op == Chat && v.Obj? && HasMember(v.members, "arguments")
  }

  /** The name of a call: its own `name` or its function's, whichever is written last. */
  function CallName(ms: Members, default: string): string {
    match ms
    case NoMembers => default
    case AddMember(front, _, key, _, _, value, _) =>
      if NameOf(key) == "name" && value.Str? then Shown(value.body)
      else if NameOf(key) == "function" && !IsLeaf(value) then FunctionName(value)
      else CallName(front, default)
  }

  predicate CallArguments(op: Operation, ms: Members, default: bool) {
    match ms
    case NoMembers => default
    case AddMember(front, _, key, _, _, value, _) =>
      if NameOf(key) == "function" && !IsLeaf(value) then FunctionArguments(op, value) else CallArguments(op, front, default)
  }

  predicate CallMembersGood(op: Operation, ms: Members) {
    match ms
    case NoMembers => true
    case AddMember(front, _, key, _, _, value, _) =>
      CallMembersGood(op, front)
      && (NameOf(key) in {"id", "name", "call_id"} && value.Str? ==> |value.body| <= MAX_TOKEN && |Unquote(value.body)| <= MAX_IDENTITY)
      && (NameOf(key) == "function" && value.Obj? ==> FunctionGood(op, value.members))
  }

  /** One element of `tool_calls`. */
  predicate CallComplete(op: Operation, req: Requirements, v: Value) {
    v.Obj? && CallMembersGood(op, v.members)
    && CallName(v.members, "") != "" && AcceptsTool(req, CallName(v.members, "")) && CallArguments(op, v.members, false)
    && StringAt(v.members, "id", "") != "" && StringAt(v.members, "type", "") == "function"
  }

  function CallId(v: Value): string {
    if v.Obj? then StringAt(v.members, "id", "") else ""
  }

  predicate CallsComplete(op: Operation, req: Requirements, items: Items) {
    match items
    case NoItems => true
    case AddItem(before, _, value, _) => CallsComplete(op, req, before) && (IsLeaf(value) || CallComplete(op, req, value))
  }

  function CallIds(items: Items): seq<string> {
    match items
    case NoItems => []
    case AddItem(before, _, value, _) => CallIds(before) + (if IsLeaf(value) then [] else [CallId(value)])
  }

  /** The older `function_call` member, which has no identity. */
  predicate LegacyComplete(op: Operation, req: Requirements, v: Value) {
    FunctionArguments(op, v) && FunctionGood(op, v.members)
    && StringAt(v.members, "name", "") != "" && AcceptsTool(req, StringAt(v.members, "name", ""))
  }

  // ---- Messages ------------------------------------------------------------------------------

  predicate MessageMembersGood(op: Operation, req: Requirements, ms: Members) {
    match ms
    case NoMembers => true
    case AddMember(front, _, key, _, _, value, _) =>
      MessageMembersGood(op, req, front)
      && (NameOf(key) == "tool_calls" && value.Arr? ==> CallsComplete(op, req, value.items))
      && (NameOf(key) == "function_call" && !IsLeaf(value) ==> LegacyComplete(op, req, value))
  }

  /** The identities of the calls of a message, in order; "" stands for a legacy call. */
  function MessageCalls(ms: Members): seq<string> {
    match ms
    case NoMembers => []
    case AddMember(front, _, key, _, _, value, _) =>
      MessageCalls(front)
      + (if NameOf(key) == "tool_calls" && value.Arr? then CallIds(value.items)
         else if NameOf(key) == "function_call" && !IsLeaf(value) then [""] else [])
  }

  predicate HasText(ms: Members) {
    ms.AddMember? && ((NameOf(ms.key) in {"content", "refusal"} && ms.value.Str?) || HasText(ms.front))
  }

  predicate MessageComplete(op: Operation, req: Requirements, v: Value) {
    v.Obj? && MessageMembersGood(op, req, v.members) && (HasText(v.members) || |MessageCalls(v.members)| > 0)
  }

  // ---- Choices ---------------------------------------------------------------------------------

  predicate ChoiceMembersGood(op: Operation, req: Requirements, ms: Members) {
    match ms
    case NoMembers => true
    case AddMember(front, _, key, _, _, value, _) =>
      ChoiceMembersGood(op, req, front)
      && (NameOf(key) == "index" && IsLeaf(value) ==> value.Lit? && Count(value.token, LitKind(value.token)).Some?)
      && (NameOf(key) == "message" && !IsLeaf(value) ==> MessageComplete(op, req, value))
  }

  function ChoiceCalls(ms: Members): seq<string> {
    match ms
    case NoMembers => []
    case AddMember(front, _, key, _, _, value, _) =>
      ChoiceCalls(front) + (if NameOf(key) == "message" && value.Obj? then MessageCalls(value.members) else [])
  }

  predicate HasMessage(ms: Members) {
    ms.AddMember? && ((NameOf(ms.key) == "message" && ms.value.Obj?) || HasMessage(ms.front))
  }

  /** How many calls the message of a choice makes. */
  function CallCount(ms: Members, default: nat): nat {
    match ms
    case NoMembers => default
    case AddMember(front, _, key, _, _, value, _) =>
      if NameOf(key) == "message" && value.Obj? then |MessageCalls(value.members)| else CallCount(front, default)
  }

  predicate FinishedAt(ms: Members, default: bool) {
    match ms
    case NoMembers => default
    case AddMember(front, _, key, _, _, value, _) =>
      if NameOf(key) == "finish_reason" && IsLeaf(value) then value.Str? && Shown(value.body) != ""
      else FinishedAt(front, default)
  }

  function FinishReasonOf(ms: Members): string {
    StringAt(ms, "finish_reason", "")
  }

  predicate ToolFinish(reason: string) {
    reason == "tool_calls" || reason == "function_call"
  }

  function IndexOf(ms: Members): int {
    match IndexAt(ms)
    case None => 0
    case Some(n) => n
  }

  /** One element of `choices`, apart from how it relates to its siblings. */
  predicate ChoiceComplete(op: Operation, req: Requirements, ms: Members) {
    ChoiceMembersGood(op, req, ms) && HasMessage(ms)
    && (req.maxToolCalls > 0 ==> CallCount(ms, 0) <= req.maxToolCalls)
    && (CallCount(ms, 0) > 0 <==> ToolFinish(FinishReasonOf(ms)))
    && (req.toolMode == RequiredTools ==> CallCount(ms, 0) > 0)
    && (req.expectedChoices > 0 ==> IndexOf(ms) < req.expectedChoices)
    && (req.expectedChoices > 1 ==> IndexAt(ms).Some?)
  }

  /** Every choice of a Chat answer is an object. */
  predicate ChoicesAllowed(op: Operation, items: Items) {
    match items
    case NoItems => true
    case AddItem(before, _, value, _) => ChoicesAllowed(op, before) && (value.Obj? || (op != Chat && IsLeaf(value)))
  }

  function Objects(items: Items): seq<Members> {
    match items
    case NoItems => []
    case AddItem(before, _, value, _) => Objects(before) + (if value.Obj? then [value.members] else [])
  }

  // ---- Plain text ---------------------------------------------------------------------------------

  /** Printable ASCII without quotes, backslashes, dots and brackets. */
  predicate Plain(s: bytes) {
    forall i :: 0 <= i < |s| ==> ' ' <= s[i] < '\U{7F}' && s[i] !in {'"', '\\', '.', '[', ']'}
  }

  /** Such text is a string body that stands for itself, also as a key. */
  lemma {:induction false} PlainText(s: bytes)
    requires Plain(s)
    ensures StringBody(s) && Unquote(s) == s
    ensures |s| <= MAX_TOKEN ==> KeyName(s) == s && NameOf(s) == s
  {
    if |s| > 0 {
      PlainText(s[1..]);
      assert [s[0]] + s[1..] == s;
    }
  }

  // ---- Whose name a call carries -------------------------------------------------------------

  /** The last object or array under `function`. */
  function LastFunction(ms: Members): Option<Value> {
    match ms
    case NoMembers => None
    case AddMember(front, _, key, _, _, value, _) =>
      if NameOf(key) == "function" && !IsLeaf(value) then Some(value) else LastFunction(front)
  }

  /** The last string under `name` that is written behind it. */
  function NameAfter(ms: Members): Option<string> {
    match ms
    case NoMembers => None
    case AddMember(front, _, key, _, _, value, _) =>
      if NameOf(key) == "name" && value.Str? then Some(Shown(value.body))
      else if NameOf(key) == "function" && !IsLeaf(value) then None else NameAfter(front)
  }

  /** A call is checked under the name of its function exactly when no other name is written
      behind the function. */
  lemma {:induction false} NamedByFunction(ms: Members)
    requires LastFunction(ms).Some?
    ensures var name := FunctionName(LastFunction(ms).value);
      CallName(ms, "") == name <==> NameAfter(ms) in {None, Some(name)}
  {
    hide NameOf, Shown, FunctionName;
    if !(NameOf(ms.key) == "name" && ms.value.Str?) && !(NameOf(ms.key) == "function" && !IsLeaf(ms.value)) {
      NamedByFunction(ms.front);
    }
  }

  function WithName(v: Value, name: bytes): Value
    requires v.Obj?
  {
    Obj(AddMember(v.members, "", "name", "", "", Str(name), ""), "")
  }

  /** Every complete call can be given any permitted name this way: one more member names it,
      whatever its function is called. */
  lemma LaterNameWins(req: Requirements, v: Value, name: bytes)
    requires CallComplete(Chat, req, v)
    requires |name| <= MAX_TOKEN && |Unquote(name)| <= MAX_IDENTITY && AcceptsTool(req, Unquote(name))
    ensures var w := WithName(v, name);
      CallComplete(Chat, req, w) && CallName(w.members, "") == Unquote(name) && LastFunction(w.members) == LastFunction(v.members)
  {
    NameIsPlain();
    hide NameOf, Unquote;
    assert "name"[0] == 'n' && "id"[0] == 'i' && "type"[0] == 't' && "function"[0] == 'f';
  }

  lemma NameIsPlain()
    ensures NameOf("name") == "name" && KeyName("name") == "name" && StringBody("name")
  {
    hide NameOf, KeyName, StringBody;
    PlainText("name");
  }

  /** The call is still a value within the limits, unless it had a `name` of its own. */
  lemma LaterNameFits(v: Value, name: bytes)
    requires v.Obj? && WellFormed(v) && WithinLimits(v) && StringBody(name) && "name" !in TrackedNames(v.members)
    ensures WellFormed(WithName(v, name)) && WithinLimits(WithName(v, name))
  {
    NameIsPlain();
    hide NameOf, KeyName, Unquote, Tracked, StringBody;
    var ms := WithName(v, name).members;
    assert WellFormedMembers(ms) && MembersWithinLimits(ms);
  }
}
