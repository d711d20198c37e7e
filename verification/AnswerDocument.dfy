/**
  Complete answers to each operation, as predicates on their syntax trees: lookups by member
  name, with no reference to a scan.
 */
module AnswerDocument {
  import opened GoText
  import opened JsonGrammar
  import opened JsonScanner
  import opened CompletionContract
  import opened ChatDocument
  import opened JsonReading

  predicate HasString(ms: Members, names: set<string>) {
    ms.AddMember? && ((NameOf(ms.key) in names && ms.value.Str?) || HasString(ms.front, names))
  }

  predicate AllObjects(items: Items) {
    match items
    case NoItems => true
    case AddItem(before, _, value, _) => AllObjects(before) && value.Obj?
  }

  // ---- Output items of a Responses answer ----------------------------------------------------

  /** One element of the `content` of an output item. */
  predicate PartComplete(v: Value) {
    v.Obj? && HasString(v.members, {"text", "refusal"}) && StringAt(v.members, "type", "") in {"output_text", "refusal"}
  }

  predicate PartsComplete(items: Items) {
    match items
    case NoItems => true
    case AddItem(before, _, value, _) => PartsComplete(before) && (IsLeaf(value) || PartComplete(value))
  }

  predicate HasPart(items: Items) {
    items.AddItem? && (HasPart(items.before) || !IsLeaf(items.value))
  }

  predicate ContentComplete(ms: Members) {
    match ms
    case NoMembers => true
    case AddMember(front, _, key, _, _, value, _) =>
      ContentComplete(front) && (NameOf(key) == "content" && value.Arr? ==> PartsComplete(value.items))
  }

  /** Content with a part in it, or encrypted content. */
  predicate HasContent(ms: Members) {
    match ms
    case NoMembers => false
    case AddMember(front, _, key, _, _, value, _) =>
      HasContent(front) || (NameOf(key) == "content" && value.Arr? && HasPart(value.items))
      || (NameOf(key) == "encrypted_content" && value.Str? && Shown(value.body) != "")
  }

  predicate ItemGood(ms: Members) {
    ShortIdentities(ms) && ArgumentsComplete(ms) && ContentComplete(ms)
  }

  /** One element of `output`: a whole function call, a message with content, or another
      item that says what it is. */
  predicate ItemComplete(req: Requirements, ms: Members) {
    var role, name := StringAt(ms, "type", ""), StringAt(ms, "name", "");
    ItemGood(ms)
    && if role == "function_call" then
         name != "" && StringAt(ms, "call_id", "") != "" && HasMember(ms, "arguments") && AcceptsTool(req, name)
       else if role == "message" then HasContent(ms) else role != ""
  }

  // ---- Content blocks of a Messages answer -------------------------------------------------------

  predicate HasInput(ms: Members) {
    ms.AddMember? && ((NameOf(ms.key) == "input" && ms.value.Obj?) || HasInput(ms.front))
  }

  /** One element of `content`: a whole tool use, or a block with something in it. */
  predicate BlockComplete(req: Requirements, ms: Members) {
    var name := StringAt(ms, "name", "");
    ShortIdentities(ms)
    && if StringAt(ms, "type", "") == "tool_use" then
         name != "" && StringAt(ms, "id", "") != "" && HasInput(ms) && AcceptsTool(req, name)
       else HasString(ms, {"text", "thinking", "data"})
  }

  // ---- Units: the items or the blocks ----------------------------------------------------------------

  predicate UnitGood(op: Operation, ms: Members) {
    if op == Responses then ItemGood(ms) else ShortIdentities(ms)
  }

  predicate UnitComplete(op: Operation, req: Requirements, ms: Members) {
    if op == Responses then ItemComplete(req, ms) else BlockComplete(req, ms)
  }

  /** The identity of the call a unit makes, if it makes one. */
  function UnitCalls(op: Operation, ms: Members): seq<string> {
    if op == Responses then (if StringAt(ms, "type", "") == "function_call" then [StringAt(ms, "call_id", "")] else [])
    else if StringAt(ms, "type", "") == "tool_use" then [StringAt(ms, "id", "")] else []
  }

  function UnitKey(op: Operation): string {
    if op == Responses then "output" else "content"
  }

  // ---- The root ---------------------------------------------------------------------------------------

  /** Every choice of the answer, in order. */
  function ChoicesOf(ms: Members): seq<Members> {
    match ms
    case NoMembers => []
    case AddMember(front, _, key, _, _, value, _) =>
      ChoicesOf(front) + (if NameOf(key) == "choices" && value.Arr? then Objects(value.items) else [])
  }

  function UnitsOf(op: Operation, ms: Members): seq<Members> {
    match ms
    case NoMembers => []
    case AddMember(front, _, key, _, _, value, _) =>
      UnitsOf(op, front) + (if op != Chat && NameOf(key) == UnitKey(op) && value.Arr? then Objects(value.items) else [])
  }

  predicate ItemsShort(items: Items) {
    match items
    case NoItems => true
    case AddItem(before, _, value, _) => ItemsShort(before) && (value.Obj? ==> ShortIdentities(value.members))
  }

  /** The items of an array at the root.  Those that another operation would judge must only
      keep their identities short. */
  predicate ArrayGood(op: Operation, key: string, items: Items) {
    if key == "choices" then ChoicesAllowed(op, items)
    else if key == "output" || key == "content" then (if op != Chat && key == UnitKey(op) then AllObjects(items) else ItemsShort(items))
    else true
  }

  predicate RootGood(op: Operation, ms: Members) {
    match ms
    case NoMembers => true
    case AddMember(front, _, key, _, _, value, _) =>
      RootGood(op, front) && (value.Arr? ==> ArrayGood(op, NameOf(key), value.items))
  }

  /** An error that is not null, or a status that says the response failed. */
  predicate ReportsError(op: Operation, ms: Members) {
    ms.AddMember?
    && ((NameOf(ms.key) == "error" && ms.value != Lit("null"))
        || (op == Responses && NameOf(ms.key) == "status" && IsLeaf(ms.value) && LeafText(ms.value) in {"failed", "incomplete", "cancelled"})
        || ReportsError(op, ms.front))
  }

  function LeafText(v: Value): bytes {
    if v.Str? then Shown(v.body) else if v.Lit? then v.token else ""
  }

  predicate HasArray(ms: Members, name: string) {
    ms.AddMember? && ((NameOf(ms.key) == name && ms.value.Arr?) || HasArray(ms.front, name))
  }

  /** The last `status` says completed, or the last `stop_reason` is a string that is not empty. */
  predicate Ends(op: Operation, ms: Members) {
    match ms
    case NoMembers => false
    case AddMember(front, _, key, _, _, value, _) =>
      if op == Responses && NameOf(key) == "status" then value.Str? && Shown(value.body) == "completed"
      else if op == Messages && NameOf(key) == "stop_reason" then value.Str? && Shown(value.body) != ""
      else Ends(op, front)
  }

  function StopReasonOf(op: Operation, ms: Members): string {
    match ms
    case NoMembers => ""
    case AddMember(front, _, key, _, _, value, _) =>
      if op == Messages && NameOf(key) == "stop_reason" then LeafText(value) else StopReasonOf(op, front)
  }

  /** An `input_tokens` that is a number of tokens. */
  predicate CountsTokens(ms: Members) {
    ms.AddMember?
    && ((NameOf(ms.key) == "input_tokens" && ms.value.Lit? && Count(ms.value.token, LitKind(ms.value.token)).Some?) || CountsTokens(ms.front))
  }

  function AllCalls(choices: seq<Members>): seq<string> {
    if |choices| == 0 then [] else AllCalls(choices[..|choices| - 1]) + ChoiceCalls(choices[|choices| - 1])
  }

  function AllUnitCalls(op: Operation, units: seq<Members>): seq<string> {
    if |units| == 0 then [] else AllUnitCalls(op, units[..|units| - 1]) + UnitCalls(op, units[|units| - 1])
  }

  predicate DistinctIds(ids: seq<string>) {
    forall i, j :: 0 <= i < j < |ids| && ids[i] != "" ==> ids[i] != ids[j]
  }

  predicate IndexesDiffer(choices: seq<Members>) {
    forall i, j :: 0 <= i < j < |choices| ==> IndexOf(choices[i]) != IndexOf(choices[j])
  }

  /** Whatever stands under `choices` must be in order, for every operation. */
  predicate ChoicesComplete(op: Operation, req: Requirements, choices: seq<Members>) {
    (forall i :: 0 <= i < |choices| ==> ChoiceComplete(op, req, choices[i])) && (req.expectedChoices > 0 ==> IndexesDiffer(choices))
  }

  /** A complete Chat answer to a request with the given requirements. */
  predicate ChatComplete(req: Requirements, root: Members) {
    var choices := ChoicesOf(root);
    RootGood(Chat, root) && !ReportsError(Chat, root)
    && |choices| > 0 && (req.expectedChoices > 0 ==> |choices| == req.expectedChoices)
    && ChoicesComplete(Chat, req, choices) && (forall i :: 0 <= i < |choices| ==> FinishedAt(choices[i], false))
    && |AllCalls(choices)| <= MAX_TOOLS && DistinctIds(AllCalls(choices))
  }

  /** What Responses and Messages answers have in common: complete units, whose calls are
      not too many and have identities of their own. */
  predicate UnitsComplete(op: Operation, req: Requirements, root: Members) {
    var units := UnitsOf(op, root);
    var calls := AllUnitCalls(op, units);
    RootGood(op, root) && !ReportsError(op, root) && ChoicesComplete(op, req, ChoicesOf(root))
    && (forall i :: 0 <= i < |units| ==> UnitComplete(op, req, units[i])) && |calls| <= MAX_TOOLS && DistinctIds(calls)
  }

  predicate CallsPromised(req: Requirements, calls: seq<string>) {
    (req.maxToolCalls > 0 ==> |calls| <= req.maxToolCalls) && (req.toolMode == RequiredTools ==> |calls| > 0)
  }

  predicate ResponsesComplete(req: Requirements, root: Members) {
    UnitsComplete(Responses, req, root) && Ends(Responses, root) && HasArray(root, "output")
    && CallsPromised(req, AllUnitCalls(Responses, UnitsOf(Responses, root)))
  }

  /** `countTokens` is set on the token-counting endpoint, which promises nothing else. */
  predicate MessagesComplete(req: Requirements, countTokens: bool, root: Members) {
    var calls := AllUnitCalls(Messages, UnitsOf(Messages, root));
    UnitsComplete(Messages, req, root)
    && if countTokens then CountsTokens(root)
       else Ends(Messages, root) && HasArray(root, "content") && CallsPromised(req, calls)
            && (|calls| > 0 <==> StopReasonOf(Messages, root) == "tool_use")
  }

  predicate AnswerComplete(op: Operation, req: Requirements, countTokens: bool, root: Members) {
    match op
    case Chat => ChatComplete(req, root)
    case Responses => ResponsesComplete(req, root)
    case Messages => MessagesComplete(req, countTokens, root)
  }

  // ---- Empty keys at the root ---------------------------------------------------------------------

  /** An empty or undecoded key: the path of its value is the root's again. */
  predicate HiddenKey(key: bytes) {
    NameOf(key) == ""
  }

  /** No member of the root has an object under such a key. */
  predicate PlainRoot(ms: Members) {
    match ms
    case NoMembers => true
    case AddMember(front, _, key, _, _, value, _) => PlainRoot(front) && !(HiddenKey(key) && value.Obj?)
  }

  function Join(a: Members, b: Members): Members {
    match b
    case NoMembers => a
    case AddMember(front, gap, key, pre, post, value, tail) => AddMember(Join(a, front), gap, key, pre, post, value, tail)
  }

  /** The members the checker takes for members of the root: an object whose key is empty
      or undecoded has the path of the root, so its members count as if written there. */
  function Spliced(ms: Members): Members {
    match ms
    case NoMembers => ms
    case AddMember(front, gap, key, pre, post, value, tail) =>
      if HiddenKey(key) && value.Obj? then Join(Spliced(front), Spliced(value.members))
      else AddMember(Spliced(front), gap, key, pre, post, value, tail)
  }

  /** The members of an object and of the objects directly in it, and so on. */
  function Weight(ms: Members): nat {
    match ms
    case NoMembers => 0
    case AddMember(front, _, _, _, _, value, _) => Weight(front) + 1 + (if value.Obj? then Weight(value.members) else 0)
  }

  lemma {:induction false} JoinWeight(a: Members, b: Members)
    ensures Weight(Join(a, b)) == Weight(a) + Weight(b)
  {
    if b.AddMember? { JoinWeight(a, b.front); }
  }

  lemma {:induction false} SplicedWeight(ms: Members)
    ensures Weight(Spliced(ms)) <= Weight(ms)
    ensures !PlainRoot(ms) ==> Weight(Spliced(ms)) < Weight(ms)
  {
    hide HiddenKey;
    if ms.AddMember? {
      SplicedWeight(ms.front);
      if HiddenKey(ms.key) && ms.value.Obj? {
        SplicedWeight(ms.value.members);
        JoinWeight(Spliced(ms.front), Spliced(ms.value.members));
      }
    }
  }

  /** Reading such members in place of the root changes something exactly if there are any. */
  lemma {:induction false} SplicedPlain(ms: Members)
    ensures Spliced(ms) == ms <==> PlainRoot(ms)
  {
    hide HiddenKey;
    if ms.AddMember? { SplicedPlain(ms.front); }
    SplicedWeight(ms);
  }
}
