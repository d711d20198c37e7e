/**
  What the three stream protocols have in common: decoded events, the calls they assemble
  piece by piece, and the state the checker carries from event to event.  Decoding an event
  into its fields is the standard library's work; everything after it is here.
 */
module StreamEvents {
  import opened GoText
  import opened CompletionContract
  import JsonScanner

  // ---- Decoded events -------------------------------------------------------------------

  /** A member that should be a string: not there, a string, or something else. */
  datatype Piece = Missing | Piece(text: bytes) | NotText

  datatype IndexField = NoIndex | NullIndex | Index(n: int) | BadIndex

  datatype CallDelta = CallDelta(index: Option<int>, id: string, kind: string, name: string, arguments: Piece)

  datatype LegacyDelta = LegacyDelta(name: string, arguments: Piece)

  /** One element of `choices` in a Chat chunk; `content` and `refusal` are missing when null. */
  datatype ChatChoice = ChatChoice(
    index: IndexField, finish: Option<string>, content: Piece, refusal: Piece, calls: seq<CallDelta>, legacy: Option<LegacyDelta>)

  datatype OutputItem = OutputItem(kind: string, id: string, name: string, callId: string, arguments: bytes)

  datatype ItemField = NoItem | Item(item: OutputItem) | BadItem

  /** The fields of a Responses event. `response` is the raw text of the final response and
      `finalOutput` its output list, if it decodes. */
  datatype ResponsesBody = ResponsesBody(
    index: Option<int>, itemId: string, delta: Piece, arguments: Option<bytes>, item: ItemField,
    response: bytes, status: string, output: bytes, error: bytes, finalOutput: Option<seq<OutputItem>>)

  datatype BlockDelta = BlockDelta(
    kind: string, partial: Option<bytes>, text: Option<bytes>, thinking: Option<bytes>, signature: Option<bytes>, stopReason: string)

  datatype StopField = BadDelta | NoStop | Stop(reason: string)

  datatype MessagesBody = MessagesBody(
    index: Option<int>, blockKind: string, blockId: string, blockName: string, input: bytes, delta: BlockDelta, stop: StopField,
    messageType: string, messageContent: bytes)

  /** `failure` is set when the event has an error member that is not null. */
  datatype StreamEvent = StreamEvent(
    kind: string, failure: bool, choices: seq<ChatChoice>, responses: ResponsesBody, messages: MessagesBody)

  /** How an event that is a JSON object decodes, if it does.  Which of its fields matter
      depends on its type, and so on the name it was sent under, which comes first. */
  type Decoder = (bytes, bytes) -> Option<StreamEvent>

  // ---- Calls in progress --------------------------------------------------------------------

  datatype StreamCall = StreamCall(
    id: string, name: string, kind: string, callId: string, args: bytes, initial: bytes,
    deltas: bool, done: bool, started: bool, argumentsDone: bool, itemDone: bool)

  const NO_CALL := StreamCall("", "", "", "", "", "", false, false, false, false, false)

  datatype StreamChoice = StreamChoice(payload: bool, finished: bool, legacy: bool, calls: map<int, StreamCall>)

  const NO_CHOICE := StreamChoice(false, false, false, map[])

  datatype Tools = Tools(
    choices: map<int, StreamChoice>, native: map<int, StreamCall>, argumentBytes: nat, callCount: nat, tools: nat,
    ids: set<string>, stopReason: string)

  const NO_TOOLS := Tools(map[], map[], 0, 0, 0, {}, "")

  /** streamCall: the call at an index, which begins one if there is room. */
  function CallAt(group: map<int, StreamCall>, index: int): StreamCall {
    if index in group then group[index] else NO_CALL
  }

  predicate CallAllowed(group: map<int, StreamCall>, index: int, callCount: nat) {
    0 <= index < MAX_TOOLS && (index in group || callCount < MAX_TOOLS)
  }

  function CallsAfter(group: map<int, StreamCall>, index: int, callCount: nat): nat {
    if index in group then callCount else callCount + 1
  }

  predicate MayAppend(call: StreamCall, argumentBytes: nat, part: bytes) {
    !call.done && !call.argumentsDone && argumentBytes + |part| <= JsonScanner.MAX_ARGUMENTS
  }

  /** appendArguments: the first delta replaces what the call began with. */
  function Appended(call: StreamCall, part: bytes): StreamCall {
    call.(args := (if call.deltas then call.args else "") + part, deltas := true)
  }

  predicate ValidCall(req: Requirements, call: StreamCall, legacy: bool) {
    (legacy || call.id != "") && call.name != "" && AcceptsTool(req, call.name) && ValidArguments(call.args)
  }

  predicate StartsWithBracket(raw: bytes) {
    var t := TrimSpace(raw);
    |t| > 0 && t[0] == '['
  }

  /** Calls are only kept at indexes from 0. */
  predicate NaturalKeys(t: Tools) {
    forall i :: i in t.native ==> i >= 0
  }
}
