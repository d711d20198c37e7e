/**
  The Responses stream: function calls are announced, filled in, completed and closed, and
  the final response must list exactly the calls that were streamed.
 */
module ResponsesStream {
  import opened GoText
  import opened CompletionContract
  import opened StreamEvents
  import opened Compact
  import Machines

  type Stepped = Machines.Outcome<Tools, ()>

  const ADDED := "response.output_item.added"
  const ITEM_DONE := "response.output_item.done"
  const DELTA := "response.function_call_arguments.delta"
  const ARGUMENTS_DONE := "response.function_call_arguments.done"
  const COMPLETED := "response.completed"

  /** An event whose type is settled. */
  datatype Notice = Notice(kind: string, body: ResponsesBody)

  predicate IsToolKind(kind: string) {
    kind == ADDED || kind == ITEM_DONE || kind == DELTA || kind == ARGUMENTS_DONE
  }

  const BLANK := OutputItem("", "", "", "", "")

  function ItemOf(b: ResponsesBody): OutputItem {
    if b.item.Item? then b.item.item else BLANK
  }

  /** Events about items that are not function calls are left alone. */
  predicate Concerns(n: Notice) {
    IsToolKind(n.kind) && !(n.body.item.Item? && n.body.item.item.kind != "function_call")
  }

  // ---- Identities ------------------------------------------------------------------------

  /** A value that is given must be the one already known. */
  predicate Agrees(known: string, given: string) {
    given == "" || known == "" || known == given
  }

  function Merged(known: string, given: string): string {
    if given == "" then known else given
  }

  predicate IdentityAgrees(call: StreamCall, item: OutputItem, itemId: string) {
    Agrees(call.id, item.id) && Agrees(Merged(call.id, item.id), itemId) && Agrees(call.name, item.name)
    && Agrees(call.callId, item.callId)
    && |item.id| <= MAX_IDENTITY && |itemId| <= MAX_IDENTITY && |item.name| <= MAX_IDENTITY && |item.callId| <= MAX_IDENTITY
  }

  function Identified(call: StreamCall, item: OutputItem, itemId: string): StreamCall {
    call.(id := Merged(Merged(call.id, item.id), itemId), name := Merged(call.name, item.name), callId := Merged(call.callId, item.callId))
  }

  // ---- One event of a call ----------------------------------------------------------------

  predicate MayUse(req: Requirements, t: Tools, index: int) {
    !(req.maxToolCalls > 0 && |t.native| >= req.maxToolCalls && index !in t.native)
    && CallAllowed(t.native, index, t.callCount) && req.toolMode != NoTools
  }

  function FinalArguments(b: ResponsesBody): bytes {
    if b.arguments.Some? then b.arguments.value else ItemOf(b).arguments
  }

  ghost predicate ArgumentsMatch(call: StreamCall, arguments: bytes) {
    ValidArguments(arguments) && (call.deltas ==> SameArguments(call.args, arguments))
  }

  /** What an event does to its call; the number is how many argument bytes it adds. */
  datatype Progress = Refused | Now(call: StreamCall, more: nat)

  function Append(call: StreamCall, argumentBytes: nat, part: bytes): Progress {
    if MayAppend(call, argumentBytes, part) then Now(Appended(call, part), |part|) else Refused
  }

  ghost function Advanced(req: Requirements, call: StreamCall, argumentBytes: nat, n: Notice): Progress {
    var arguments := FinalArguments(n.body);
    if n.kind == ADDED then
      if call.started || call.id == "" || call.callId == "" || !AcceptsTool(req, call.name) then Refused
      else Now(call.(started := true), 0)
    else if !call.started then Refused
    else if n.kind == DELTA then
      if n.body.delta.Piece? then Append(call, argumentBytes, n.body.delta.text) else Refused
    else if !ArgumentsMatch(call, arguments) then Refused
    else if n.kind == ARGUMENTS_DONE then
      if call.argumentsDone || call.itemDone then Refused
      else
        match (if call.deltas then Now(call, 0) else Append(call, argumentBytes, arguments))
        case Refused => Refused
        case Now(whole, more) => Now(whole.(argumentsDone := true), more)
    else
      var item := ItemOf(n.body);
      if !call.argumentsDone || call.itemDone || item.id == "" || item.callId == "" || item.name == "" then Refused
      else Now(call.(itemDone := true, done := true), 0)
  }

  ghost function CallStep(req: Requirements, t: Tools, index: int, n: Notice): Stepped {
    var item := ItemOf(n.body);
    var before := CallAt(t.native, index);
    if !MayUse(req, t, index) || !IdentityAgrees(before, item, n.body.itemId) then Machines.Reject
    else
      match Advanced(req, Identified(before, item, n.body.itemId), t.argumentBytes, n)
      case Refused => Machines.Reject
      case Now(call, more) =>
        Machines.Advance(t.(native := t.native[index := call], callCount := CallsAfter(t.native, index, t.callCount),
                            argumentBytes := t.argumentBytes + more), [])
  }

  /** Events before the last one. */
  ghost function ToolStep(req: Requirements, t: Tools, n: Notice): Stepped {
    if !IsToolKind(n.kind) then Machines.Advance(t, [])
    else if n.body.index.None? || n.body.item.BadItem? then Machines.Reject
    else if !Concerns(n) then Machines.Advance(t, [])
    else CallStep(req, t, n.body.index.value, n)
  }

  ghost function ToolStepper(req: Requirements): (Tools, Notice) -> Stepped {
    (t, n) => ToolStep(req, t, n)
  }

  ghost function Follow(req: Requirements, t: Tools, ns: seq<Notice>): Stepped {
    Machines.Run(ToolStepper(req), t, ns)
  }

  // ---- The final response --------------------------------------------------------------------

  ghost predicate SameCall(call: StreamCall, item: OutputItem) {
    item.kind == "function_call" && call.id == item.id && call.name == item.name && call.callId == item.callId
    && SameArguments(call.args, item.arguments)
  }

  ghost predicate OutputMatches(t: Tools, output: seq<OutputItem>) {
    (forall i :: 0 <= i < |output| && output[i].kind == "function_call" ==> i in t.native && t.native[i].done)
    && forall i :: i in t.native ==> i < |output| && t.native[i].done && 0 <= i && SameCall(t.native[i], output[i])
  }

  predicate ReportsCompletion(b: ResponsesBody) {
    b.status == "completed" && StartsWithBracket(b.output) && (b.error == "" || TrimSpace(b.error) == "null")
  }

  /** response.completed is accepted. */
  ghost predicate MayComplete(req: Requirements, t: Tools, b: ResponsesBody) {
    AcceptsBody(Responses, req, false, b.response)
    && b.finalOutput.Some? && OutputMatches(t, b.finalOutput.value) && ReportsCompletion(b)
  }

  // ---- The story of one call -------------------------------------------------------------------

  datatype Phase = Added | Delta | ArgumentsDone | ItemDone

  function PhaseOf(kind: string): Phase {
    if kind == ADDED then Added else if kind == DELTA then Delta else if kind == ARGUMENTS_DONE then ArgumentsDone else ItemDone
  }

  predicate About(n: Notice, index: int) {
    Concerns(n) && n.body.index == Some(index)
  }

  /** What happened to the call at an index, in order. */
  function Phases(ns: seq<Notice>, index: int): seq<Phase> {
    if |ns| == 0 then []
    else
      var n := ns[|ns| - 1];
      Phases(ns[..|ns| - 1], index) + (if About(n, index) then [PhaseOf(n.kind)] else [])
  }

  /** The deltas of that call, put together. */
  function Streamed(ns: seq<Notice>, index: int): bytes {
    if |ns| == 0 then ""
    else
      var n := ns[|ns| - 1];
      Streamed(ns[..|ns| - 1], index) + (if About(n, index) && n.kind == DELTA && n.body.delta.Piece? then n.body.delta.text else "")
  }

  function Deltas(k: nat): seq<Phase> {
    if k == 0 then [] else Deltas(k - 1) + [Delta]
  }

  /** A call so far: announced, filled in k times, and then perhaps completed and closed. */
  predicate Story(phases: seq<Phase>, k: nat, argumentsDone: bool, itemDone: bool) {
    (itemDone ==> argumentsDone)
    && phases == [Added] + Deltas(k) + (if argumentsDone then [ArgumentsDone] else []) + (if itemDone then [ItemDone] else [])
  }

  /** The state of a call is its story, and its arguments are the deltas when there were any. */
  ghost predicate Tells(call: StreamCall, phases: seq<Phase>, streamed: bytes) {
    call.started && call.done == call.itemDone
    && exists k: nat :: Story(phases, k, call.argumentsDone, call.itemDone)
                        && call.deltas == (k > 0 || call.argumentsDone) && (k > 0 ==> call.args == streamed)
                        && (k == 0 ==> streamed == "" && (!call.deltas ==> call.args == ""))
  }

  ghost predicate AllTell(t: Tools, ns: seq<Notice>) {
    forall i :: if i in t.native then Tells(t.native[i], Phases(ns, i), Streamed(ns, i)) else Phases(ns, i) == [] && Streamed(ns, i) == ""
  }

  lemma StepTells(req: Requirements, before: StreamCall, known: bool, argumentBytes: nat, n: Notice, phases: seq<Phase>, streamed: bytes)
    requires if known then Tells(before, phases, streamed) else before == NO_CALL && phases == [] && streamed == ""
    requires IsToolKind(n.kind) && Advanced(req, Identified(before, ItemOf(n.body), n.body.itemId), argumentBytes, n).Now?
    ensures Tells(Advanced(req, Identified(before, ItemOf(n.body), n.body.itemId), argumentBytes, n).call, phases + [PhaseOf(n.kind)],
                  streamed + (if n.kind == DELTA && n.body.delta.Piece? then n.body.delta.text else ""))
  {
    hide AcceptsTool, ArgumentsMatch, Agrees, Merged, FinalArguments;
    var after := Advanced(req, Identified(before, ItemOf(n.body), n.body.itemId), argumentBytes, n).call;
    assert streamed + "" == streamed;
    if n.kind == ADDED {
      assert phases == [];
      assert [] + [Added] == [Added] + Deltas(0) + [] + [];
      assert Story(phases + [Added], 0, after.argumentsDone, after.itemDone);
    } else {
      assert known;
      var k: nat :| Story(phases, k, before.argumentsDone, before.itemDone)
        && before.deltas == (k > 0 || before.argumentsDone) && (k > 0 ==> before.args == streamed)
        && (k == 0 ==> streamed == "" && (!before.deltas ==> before.args == ""));
      LaterTells(req, before, after, k, argumentBytes, n, phases);
    }
  }

  lemma LaterTells(req: Requirements, before: StreamCall, after: StreamCall, k: nat, argumentBytes: nat, n: Notice, phases: seq<Phase>)
    requires before.started && before.done == before.itemDone && IsToolKind(n.kind) && n.kind != ADDED
    requires Story(phases, k, before.argumentsDone, before.itemDone) && before.deltas == (k > 0 || before.argumentsDone)
    requires Advanced(req, Identified(before, ItemOf(n.body), n.body.itemId), argumentBytes, n).Now?
    requires after == Advanced(req, Identified(before, ItemOf(n.body), n.body.itemId), argumentBytes, n).call
    ensures after.started && after.done == after.itemDone
    ensures n.kind == DELTA ==> Story(phases + [Delta], k + 1, false, false) && !after.argumentsDone && !after.itemDone && after.deltas
                                && after.args == (if k > 0 then before.args else "") + n.body.delta.text
    ensures n.kind == ARGUMENTS_DONE ==> Story(phases + [ArgumentsDone], k, true, false) && after.argumentsDone && !after.itemDone
                                         && after.deltas && (k > 0 ==> after.args == before.args)
    ensures n.kind == ITEM_DONE ==> Story(phases + [ItemDone], k, true, true) && after.argumentsDone && after.itemDone
                                    && after.deltas == before.deltas && after.args == before.args
  {
    hide AcceptsTool, ArgumentsMatch, Agrees, Merged, FinalArguments;
    if n.kind == DELTA {
      assert [Added] + Deltas(k) + [] + [] + [Delta] == [Added] + Deltas(k + 1) + [] + [];
    } else if n.kind == ARGUMENTS_DONE {
      assert [Added] + Deltas(k) + [] + [] + [ArgumentsDone] == [Added] + Deltas(k) + [ArgumentsDone] + [];
    } else {
      assert [Added] + Deltas(k) + [ArgumentsDone] + [] + [ItemDone] == [Added] + Deltas(k) + [ArgumentsDone] + [ItemDone];
    }
  }

  lemma AllTellStep(req: Requirements, t: Tools, ns: seq<Notice>)
    requires |ns| > 0 && AllTell(t, ns[..|ns| - 1]) && ToolStep(req, t, ns[|ns| - 1]).Advance?
    ensures AllTell(ToolStep(req, t, ns[|ns| - 1]).next, ns)
  {
    hide MayUse, IdentityAgrees, Advanced, Tells, PhaseOf, ItemOf;
    var front, n := ns[..|ns| - 1], ns[|ns| - 1];
    var t1 := ToolStep(req, t, n).next;
    forall i
      ensures if i in t1.native then Tells(t1.native[i], Phases(ns, i), Streamed(ns, i)) else Phases(ns, i) == [] && Streamed(ns, i) == ""
    {
      if About(n, i) {
        StepTells(req, CallAt(t.native, i), i in t.native, t.argumentBytes, n, Phases(front, i), Streamed(front, i));
      } else {
        assert Phases(front, i) + [] == Phases(front, i);
        assert Streamed(front, i) + "" == Streamed(front, i);
        hide Phases, Streamed;
      }
    }
  }

  /** At every point of an accepted stream each call is its own story. */
  lemma {:induction false} CallsTell(req: Requirements, ns: seq<Notice>)
    requires Follow(req, NO_TOOLS, ns).Advance?
    ensures AllTell(Follow(req, NO_TOOLS, ns).next, ns)
  {
    if |ns| > 0 {
      hide ToolStep, AllTell;
      CallsTell(req, ns[..|ns| - 1]);
      AllTellStep(req, Follow(req, NO_TOOLS, ns[..|ns| - 1]).next, ns);
    }
  }

  // ---- What the events of a call said ---------------------------------------------------------------

  /** The identities an event carries are those of its call, and the arguments it completes
      the call with are the call's. */
  ghost predicate Knows(call: StreamCall, n: Notice) {
    var item := ItemOf(n.body);
    (item.id != "" ==> call.id == item.id) && (n.body.itemId != "" ==> call.id == n.body.itemId)
    && (item.name != "" ==> call.name == item.name) && (item.callId != "" ==> call.callId == item.callId)
    && (n.kind == ARGUMENTS_DONE || n.kind == ITEM_DONE ==>
          call.argumentsDone && (call.args == FinalArguments(n.body) || SameArguments(call.args, FinalArguments(n.body))))
  }

  ghost predicate AllKnow(t: Tools, ns: seq<Notice>) {
    (forall i :: i in t.native && t.native[i].argumentsDone ==> t.native[i].deltas)
    && forall i, k :: 0 <= k < |ns| && About(ns[k], i) ==> i in t.native && Knows(t.native[i], ns[k])
  }

  lemma KnowsItself(req: Requirements, before: StreamCall, argumentBytes: nat, n: Notice)
    requires IdentityAgrees(before, ItemOf(n.body), n.body.itemId) && (before.argumentsDone ==> before.deltas) && IsToolKind(n.kind)
    requires Advanced(req, Identified(before, ItemOf(n.body), n.body.itemId), argumentBytes, n).Now?
    ensures var after := Advanced(req, Identified(before, ItemOf(n.body), n.body.itemId), argumentBytes, n).call;
      Knows(after, n) && (after.argumentsDone ==> after.deltas)
  {
    hide AcceptsTool, ValidArguments, SameArguments, FinalArguments;
    assert "" + FinalArguments(n.body) == FinalArguments(n.body);
  }

  /** Later events change nothing of what an earlier one said. */
  lemma KnowsEarlier(req: Requirements, before: StreamCall, argumentBytes: nat, n: Notice, m: Notice)
    requires IdentityAgrees(before, ItemOf(n.body), n.body.itemId) && IsToolKind(n.kind) && Knows(before, m)
    requires Advanced(req, Identified(before, ItemOf(n.body), n.body.itemId), argumentBytes, n).Now?
    ensures Knows(Advanced(req, Identified(before, ItemOf(n.body), n.body.itemId), argumentBytes, n).call, m)
  {
    hide AcceptsTool, ValidArguments, SameArguments, FinalArguments;
  }

  lemma AllKnowStep(req: Requirements, t: Tools, ns: seq<Notice>)
    requires |ns| > 0 && AllKnow(t, ns[..|ns| - 1]) && ToolStep(req, t, ns[|ns| - 1]).Advance?
    ensures AllKnow(ToolStep(req, t, ns[|ns| - 1]).next, ns)
  {
    hide MayUse, IdentityAgrees, Advanced, Knows, ItemOf, Identified;
    var front, n := ns[..|ns| - 1], ns[|ns| - 1];
    var t1 := ToolStep(req, t, n).next;
    if Concerns(n) { KnowsItself(req, CallAt(t.native, n.body.index.value), t.argumentBytes, n); }
    forall i, k | 0 <= k < |ns| && About(ns[k], i) ensures i in t1.native && Knows(t1.native[i], ns[k]) {
      if k < |front| {
        assert front[k] == ns[k];
        if About(n, i) { KnowsEarlier(req, t.native[i], t.argumentBytes, n, ns[k]); }
      }
    }
  }

  lemma {:induction false} CallsKnow(req: Requirements, ns: seq<Notice>)
    requires Follow(req, NO_TOOLS, ns).Advance?
    ensures AllKnow(Follow(req, NO_TOOLS, ns).next, ns)
  {
    if |ns| > 0 {
      hide ToolStep, AllKnow;
      CallsKnow(req, ns[..|ns| - 1]);
      AllKnowStep(req, Follow(req, NO_TOOLS, ns[..|ns| - 1]).next, ns);
    }
  }

  // ---- Complete streams -----------------------------------------------------------------------------

  /** Announced, filled in some number of times, completed and closed. */
  ghost predicate WholeStory(phases: seq<Phase>) {
    exists k: nat :: Story(phases, k, true, true)
  }

  /** What an event says of a call is what the final response says of it. */
  ghost predicate Says(n: Notice, final: OutputItem) {
    var item := ItemOf(n.body);
    (item.id != "" ==> final.id == item.id) && (n.body.itemId != "" ==> final.id == n.body.itemId)
    && (item.name != "" ==> final.name == item.name) && (item.callId != "" ==> final.callId == item.callId)
    && (n.kind == ARGUMENTS_DONE || n.kind == ITEM_DONE ==> SameArguments(FinalArguments(n.body), final.arguments))
  }

  /** The calls of the final response are exactly those that were streamed, from beginning
      to end; every event of a call carried the identities it has there, and its deltas and
      its completed arguments are the ones there, apart from white space. */
  ghost predicate CallsCorrespond(ns: seq<Notice>, output: seq<OutputItem>) {
    forall i ::
      (Phases(ns, i) != [] <==> 0 <= i < |output| && output[i].kind == "function_call")
      && (Phases(ns, i) != [] ==> WholeStory(Phases(ns, i))
                                  && (Delta in Phases(ns, i) ==> SameArguments(Streamed(ns, i), output[i].arguments))
                                  && forall k :: 0 <= k < |ns| && About(ns[k], i) ==> Says(ns[k], output[i]))
  }

  lemma {:induction false} NoDeltas(k: nat)
    ensures Delta in Deltas(k) <==> k > 0
  {
    if k > 0 { NoDeltas(k - 1); }
  }

  lemma DoneTells(call: StreamCall, phases: seq<Phase>, streamed: bytes)
    requires Tells(call, phases, streamed) && call.done
    ensures WholeStory(phases) && (Delta in phases ==> call.args == streamed)
  {
    var k: nat :| Story(phases, k, call.argumentsDone, call.itemDone)
      && call.deltas == (k > 0 || call.argumentsDone) && (k > 0 ==> call.args == streamed)
      && (k == 0 ==> streamed == "" && (!call.deltas ==> call.args == ""));
    NoDeltas(k);
  }

  lemma TellsSomething(call: StreamCall, phases: seq<Phase>, streamed: bytes)
    requires Tells(call, phases, streamed)
    ensures phases != []
  {
  }

  lemma SaysTheSame(call: StreamCall, n: Notice, final: OutputItem)
    requires Knows(call, n) && SameCall(call, final)
    ensures Says(n, final)
  {
    hide FinalArguments, ItemOf;
  }

  lemma CompletedStream(req: Requirements, ns: seq<Notice>, b: ResponsesBody)
    requires Follow(req, NO_TOOLS, ns).Advance? && MayComplete(req, Follow(req, NO_TOOLS, ns).next, b)
    ensures CallsCorrespond(ns, b.finalOutput.value)
  {
    CallsTell(req, ns);
    CallsKnow(req, ns);
    hide Follow, Tells, WholeStory, AcceptsBody, SameArguments, Phases, Streamed, Knows, Says, About;
    var t, output := Follow(req, NO_TOOLS, ns).next, b.finalOutput.value;
    forall i
      ensures Phases(ns, i) != [] <==> 0 <= i < |output| && output[i].kind == "function_call"
      ensures Phases(ns, i) != [] ==> WholeStory(Phases(ns, i))
                                      && (Delta in Phases(ns, i) ==> SameArguments(Streamed(ns, i), output[i].arguments))
                                      && forall k :: 0 <= k < |ns| && About(ns[k], i) ==> Says(ns[k], output[i])
    {
      if i in t.native {
        TellsSomething(t.native[i], Phases(ns, i), Streamed(ns, i));
        DoneTells(t.native[i], Phases(ns, i), Streamed(ns, i));
        forall k | 0 <= k < |ns| && About(ns[k], i) ensures Says(ns[k], output[i]) {
          SaysTheSame(t.native[i], ns[k], output[i]);
        }
      }
    }
  }
}
