/**
  The Messages stream: content blocks start, grow and stop before the message does, tool
  identities are never reused, and the tools counted are the tool blocks that were sent.
 */
module MessagesStream {
  import opened GoText
  import opened CompletionContract
  import opened StreamEvents
  import opened Compact
  import JsonScanner
  import Machines

  type Stepped = Machines.Outcome<Tools, ()>

  const START := "content_block_start"
  const DELTA := "content_block_delta"
  const STOP := "content_block_stop"
  const MESSAGE_START := "message_start"
  const MESSAGE_DELTA := "message_delta"
  const MESSAGE_STOP := "message_stop"

  datatype Notice = Notice(kind: string, body: MessagesBody)

  predicate IsBlockKind(kind: string) {
    kind == START || kind == DELTA || kind == STOP
  }

  const TOOL_USE := "tool_use"

  // ---- Blocks ------------------------------------------------------------------------------

  function NewBlock(b: MessagesBody): StreamCall {
    NO_CALL.(kind := b.blockKind, id := b.blockId, name := b.blockName)
  }

  predicate MayStartTool(req: Requirements, t: Tools, b: MessagesBody) {
    !(req.maxToolCalls > 0 && |t.ids| >= req.maxToolCalls) && b.blockId !in t.ids
    && AcceptsTool(req, b.blockName) && b.blockId != "" && ValidArguments(b.input)
    && t.argumentBytes + |b.input| <= JsonScanner.MAX_ARGUMENTS
  }

  function StartBlock(req: Requirements, t: Tools, index: int, b: MessagesBody): Stepped {
    if index in t.native || !CallAllowed(t.native, index, t.callCount) || |b.blockId| > MAX_IDENTITY || |b.blockName| > MAX_IDENTITY
    then Machines.Reject
    else
      var counted := t.(callCount := t.callCount + 1);
      if b.blockKind != TOOL_USE then Machines.Advance(counted.(native := t.native[index := NewBlock(b)]), [])
      else if !MayStartTool(req, t, b) then Machines.Reject
      else Machines.Advance(counted.(native := t.native[index := NewBlock(b).(initial := b.input, args := b.input)],
                                     ids := t.ids + {b.blockId}, argumentBytes := t.argumentBytes + |b.input|), [])
  }

  predicate DeltaFits(call: StreamCall, d: BlockDelta) {
    (d.kind == "text_delta" ==> call.kind == "text" && d.text.Some?)
    && (d.kind == "thinking_delta" ==> call.kind == "thinking" && d.thinking.Some?)
    && (d.kind == "signature_delta" ==> call.kind == "thinking" && d.signature.Some?)
    && (d.kind == "input_json_delta" ==> call.kind == TOOL_USE && d.partial.Some?)
  }

  function GrowBlock(t: Tools, index: int, d: BlockDelta): Stepped
    requires index in t.native
  {
    var call := t.native[index];
    if !DeltaFits(call, d) then Machines.Reject
    else if d.kind != "input_json_delta" then Machines.Advance(t, [])
    else if !MayAppend(call, t.argumentBytes, d.partial.value) then Machines.Reject
    else Machines.Advance(t.(native := t.native[index := Appended(call, d.partial.value)],
                             argumentBytes := t.argumentBytes + |d.partial.value|), [])
  }

  /** A tool block that was given arguments twice must have been given the same ones. */
  ghost predicate MayStopTool(req: Requirements, call: StreamCall) {
    ValidCall(req, call, false)
    && (call.deltas && TrimSpace(call.initial) != "{}" ==> SameArguments(call.initial, call.args))
  }

  ghost function StopBlock(req: Requirements, t: Tools, index: int): Stepped
    requires index in t.native
  {
    var call := t.native[index];
    if call.kind == TOOL_USE && !MayStopTool(req, call) then Machines.Reject
    else Machines.Advance(t.(native := t.native[index := call.(done := true)],
                             tools := if call.kind == TOOL_USE then t.tools + 1 else t.tools), [])
  }

  ghost function BlockStep(req: Requirements, t: Tools, n: Notice): Stepped {
    if n.body.index.None? then Machines.Reject
    else
      var index := n.body.index.value;
      if n.kind == START then StartBlock(req, t, index, n.body)
      else if index !in t.native || t.native[index].done then Machines.Reject
      else if n.kind == DELTA then GrowBlock(t, index, n.body.delta)
      else StopBlock(req, t, index)
  }

  /** Events before the last one. */
  ghost function ToolStep(req: Requirements, t: Tools, n: Notice): Stepped {
    if n.kind == MESSAGE_DELTA then
      Machines.Advance(if n.body.delta.stopReason != "" then t.(stopReason := n.body.delta.stopReason) else t, [])
    else if IsBlockKind(n.kind) then BlockStep(req, t, n)
    else Machines.Advance(t, [])
  }

  ghost function ToolStepper(req: Requirements): (Tools, Notice) -> Stepped {
    (t, n) => ToolStep(req, t, n)
  }

  ghost function Follow(req: Requirements, t: Tools, ns: seq<Notice>): Stepped {
    Machines.Run(ToolStepper(req), t, ns)
  }

  /** message_stop is accepted by the tool contract. */
  predicate MayStop(req: Requirements, t: Tools) {
    (forall i :: i in t.native ==> t.native[i].done)
    && (req.toolMode == RequiredTools ==> t.tools > 0) && (t.tools > 0 <==> t.stopReason == TOOL_USE)
  }

  // ---- The other ledger ----------------------------------------------------------------------

  datatype Flags = Flags(started: bool, stopped: bool)

  predicate FlagsRefuse(f: Flags, n: Notice) {
    n.kind == MESSAGE_DELTA && n.body.stop.BadDelta?
  }

  function FlagsAfter(f: Flags, n: Notice): Flags {
    Flags(f.started || (n.kind == MESSAGE_START && n.body.messageType == "message" && StartsWithBracket(n.body.messageContent)),
          f.stopped || (n.kind == MESSAGE_DELTA && n.body.stop.Stop? && n.body.stop.reason != ""))
  }

  // ---- The story of one block -------------------------------------------------------------------

  datatype Phase = Started | Delta | Stopped

  function PhaseOf(kind: string): Phase {
    if kind == START then Started else if kind == DELTA then Delta else Stopped
  }

  predicate About(n: Notice, index: int) {
    IsBlockKind(n.kind) && n.body.index == Some(index)
  }

  function Phases(ns: seq<Notice>, index: int): seq<Phase> {
    if |ns| == 0 then []
    else
      var n := ns[|ns| - 1];
      Phases(ns[..|ns| - 1], index) + (if About(n, index) then [PhaseOf(n.kind)] else [])
  }

  function Deltas(k: nat): seq<Phase> {
    if k == 0 then [] else Deltas(k - 1) + [Delta]
  }

  predicate Story(phases: seq<Phase>, k: nat, stopped: bool) {
    phases == [Started] + Deltas(k) + (if stopped then [Stopped] else [])
  }

  ghost predicate Tells(call: StreamCall, phases: seq<Phase>) {
    exists k: nat :: Story(phases, k, call.done)
  }

  ghost predicate AllTell(t: Tools, ns: seq<Notice>) {
    forall i :: if i in t.native then Tells(t.native[i], Phases(ns, i)) else Phases(ns, i) == []
  }

  lemma StoryGrows(phases: seq<Phase>, k: nat)
    requires Story(phases, k, false)
    ensures Story(phases + [Delta], k + 1, false) && Story(phases + [Stopped], k, true)
  {
    assert [Started] + Deltas(k) + [] + [Delta] == [Started] + Deltas(k + 1) + [];
    assert [Started] + Deltas(k) + [] + [Stopped] == [Started] + Deltas(k) + [Stopped];
  }

  lemma BlockTells(req: Requirements, t: Tools, n: Notice, phases: seq<Phase>)
    requires IsBlockKind(n.kind) && BlockStep(req, t, n).Advance?
    requires var i := n.body.index.value; if i in t.native then Tells(t.native[i], phases) else phases == []
    ensures var t1, i := BlockStep(req, t, n).next, n.body.index.value;
      i in t1.native && Tells(t1.native[i], phases + [PhaseOf(n.kind)])
      && forall j :: j != i ==> (j in t1.native <==> j in t.native) && (j in t.native ==> t1.native[j] == t.native[j])
  {
    hide MayStartTool, MayStopTool, DeltaFits, MayAppend, CallAllowed;
    var i := n.body.index.value;
    if n.kind == START {
      assert [] + [Started] == [Started] + Deltas(0) + [];
      assert Story(phases + [Started], 0, false);
    } else {
      var k: nat :| Story(phases, k, t.native[i].done);
      StoryGrows(phases, k);
    }
  }

  lemma AllTellStep(req: Requirements, t: Tools, ns: seq<Notice>)
    requires |ns| > 0 && AllTell(t, ns[..|ns| - 1]) && ToolStep(req, t, ns[|ns| - 1]).Advance?
    ensures AllTell(ToolStep(req, t, ns[|ns| - 1]).next, ns)
  {
    hide BlockStep, Tells, PhaseOf;
    var front, n := ns[..|ns| - 1], ns[|ns| - 1];
    var t1 := ToolStep(req, t, n).next;
    if IsBlockKind(n.kind) {
      if n.body.index.Some? { BlockTells(req, t, n, Phases(front, n.body.index.value)); } else { NoIndexRefused(req, t, n); }
    }
    forall i ensures if i in t1.native then Tells(t1.native[i], Phases(ns, i)) else Phases(ns, i) == [] {
      if !About(n, i) { assert Phases(front, i) + [] == Phases(front, i); }
    }
  }

  lemma NoIndexRefused(req: Requirements, t: Tools, n: Notice)
    requires n.body.index.None?
    ensures BlockStep(req, t, n).Reject?
  {
  }

  // ---- Counting tools -------------------------------------------------------------------------------

  function ToolBlocks(t: Tools): set<int> {
    set i | i in t.native && t.native[i].kind == TOOL_USE
  }

  function StoppedTools(t: Tools): set<int> {
    set i | i in t.native && t.native[i].kind == TOOL_USE && t.native[i].done
  }

  /** The bytes of the inputs that tool blocks began with, and of their deltas. */
  function InputBytes(n: Notice): nat {
    if n.kind == START && n.body.blockKind == TOOL_USE then |n.body.input|
    else if n.kind == DELTA && n.body.delta.kind == "input_json_delta" && n.body.delta.partial.Some? then |n.body.delta.partial.value|
    else 0
  }

  function AllInputBytes(ns: seq<Notice>): nat {
    if |ns| == 0 then 0 else AllInputBytes(ns[..|ns| - 1]) + InputBytes(ns[|ns| - 1])
  }

  /** The counters are those of the tool blocks. */
  ghost predicate Counted(t: Tools, total: nat) {
    t.tools == |StoppedTools(t)| && t.argumentBytes == total && total <= JsonScanner.MAX_ARGUMENTS && |t.ids| == |ToolBlocks(t)|
  }

  lemma StartCounts(req: Requirements, t: Tools, index: int, b: MessagesBody, total: nat)
    requires Counted(t, total) && StartBlock(req, t, index, b).Advance?
    ensures Counted(StartBlock(req, t, index, b).next, total + InputBytes(Notice(START, b)))
  {
    hide AcceptsTool, ValidArguments, CallAllowed, Counted;
    var t1 := StartBlock(req, t, index, b).next;
    if b.blockKind == TOOL_USE {
      ToolAdded(t, t1, index, b, total);
    } else {
      BlockAdded(t, t1, index, b, total);
    }
  }

  lemma ToolAdded(t: Tools, t1: Tools, index: int, b: MessagesBody, total: nat)
    requires Counted(t, total) && index !in t.native && b.blockId !in t.ids && t.argumentBytes + |b.input| <= JsonScanner.MAX_ARGUMENTS
    requires b.blockKind == TOOL_USE && t1.native == t.native[index := NewBlock(b).(initial := b.input, args := b.input)]
    requires t1.ids == t.ids + {b.blockId} && t1.argumentBytes == t.argumentBytes + |b.input| && t1.tools == t.tools
    ensures Counted(t1, total + |b.input|)
  {
    hide CallAllowed;
    ToolSets(t, t1, index, b);
    hide ToolBlocks, StoppedTools;
  }

  lemma ToolSets(t: Tools, t1: Tools, index: int, b: MessagesBody)
    requires index !in t.native && b.blockKind == TOOL_USE
    requires t1.native == t.native[index := NewBlock(b).(initial := b.input, args := b.input)]
    ensures StoppedTools(t1) == StoppedTools(t) && ToolBlocks(t1) == ToolBlocks(t) + {index}
    ensures index !in ToolBlocks(t)
  {
  }

  lemma BlockAdded(t: Tools, t1: Tools, index: int, b: MessagesBody, total: nat)
    requires Counted(t, total) && index !in t.native && b.blockKind != TOOL_USE && t1.native == t.native[index := NewBlock(b)]
    requires t1.ids == t.ids && t1.argumentBytes == t.argumentBytes && t1.tools == t.tools
    ensures Counted(t1, total)
  {
    assert StoppedTools(t1) == StoppedTools(t);
    assert ToolBlocks(t1) == ToolBlocks(t);
  }

  lemma GrowCounts(t: Tools, index: int, d: BlockDelta, total: nat)
    requires Counted(t, total) && index in t.native && GrowBlock(t, index, d).Advance?
    ensures Counted(GrowBlock(t, index, d).next, total + (if d.kind == "input_json_delta" then |d.partial.value| else 0))
  {
    var t1 := GrowBlock(t, index, d).next;
    assert StoppedTools(t1) == StoppedTools(t);
    assert ToolBlocks(t1) == ToolBlocks(t);
  }

  lemma StopCounts(req: Requirements, t: Tools, index: int, total: nat)
    requires Counted(t, total) && index in t.native && !t.native[index].done && StopBlock(req, t, index).Advance?
    ensures Counted(StopBlock(req, t, index).next, total)
  {
    hide MayStopTool;
    var t1 := StopBlock(req, t, index).next;
    assert ToolBlocks(t1) == ToolBlocks(t);
    if t.native[index].kind == TOOL_USE {
      assert StoppedTools(t1) == StoppedTools(t) + {index};
    } else {
      assert StoppedTools(t1) == StoppedTools(t);
    }
  }

  lemma StepCounts(req: Requirements, t: Tools, n: Notice, total: nat)
    requires Counted(t, total) && ToolStep(req, t, n).Advance?
    ensures Counted(ToolStep(req, t, n).next, total + InputBytes(n))
  {
    hide StartBlock, GrowBlock, StopBlock, Counted;
    if n.kind == START {
      StartCounts(req, t, n.body.index.value, n.body, total);
      assert InputBytes(Notice(START, n.body)) == InputBytes(n);
    } else if n.kind == DELTA {
      GrowCounts(t, n.body.index.value, n.body.delta, total);
      DeltaBytes(t, n);
    } else if n.kind == STOP {
      StopCounts(req, t, n.body.index.value, total);
    } else {
      ReasonCounts(t, ToolStep(req, t, n).next, total);
    }
  }

  lemma DeltaBytes(t: Tools, n: Notice)
    requires n.kind == DELTA && n.body.index.Some? && n.body.index.value in t.native && GrowBlock(t, n.body.index.value, n.body.delta).Advance?
    ensures InputBytes(n) == if n.body.delta.kind == "input_json_delta" then |n.body.delta.partial.value| else 0
  {
  }

  lemma ReasonCounts(t: Tools, t1: Tools, total: nat)
    requires Counted(t, total) && t1 == t.(stopReason := t1.stopReason)
    ensures Counted(t1, total)
  {
    assert StoppedTools(t1) == StoppedTools(t);
    assert ToolBlocks(t1) == ToolBlocks(t);
  }

  // ---- Tool identities --------------------------------------------------------------------------------

  predicate StartsTool(n: Notice) {
    n.kind == START && n.body.blockKind == TOOL_USE
  }

  /** The identities that tool blocks started with, in order. */
  function ToolIds(ns: seq<Notice>): seq<string> {
    if |ns| == 0 then []
    else
      var n := ns[|ns| - 1];
      ToolIds(ns[..|ns| - 1]) + (if StartsTool(n) then [n.body.blockId] else [])
  }

  predicate OwnIdentities(ids: seq<string>) {
    (forall i :: 0 <= i < |ids| ==> ids[i] != "") && forall i, j :: 0 <= i < j < |ids| ==> ids[i] != ids[j]
  }

  /** The identities kept are those, no two of which are the same. */
  ghost predicate IdsKept(kept: set<string>, ids: seq<string>) {
    OwnIdentities(ids) && |kept| == |ids| && forall id :: id in kept <==> id in ids
  }

  lemma OneMoreId(kept: set<string>, ids: seq<string>, id: string)
    requires IdsKept(kept, ids) && id != "" && id !in kept
    ensures IdsKept(kept + {id}, ids + [id])
  {
    var after := ids + [id];
    assert forall x :: x in after <==> x in ids || x == id;
    assert forall i :: 0 <= i < |ids| ==> after[i] == ids[i] && ids[i] in ids;
  }

  lemma StepIds(req: Requirements, t: Tools, n: Notice)
    requires ToolStep(req, t, n).Advance?
    ensures var t1 := ToolStep(req, t, n).next;
      if StartsTool(n) then n.body.blockId !in t.ids && n.body.blockId != "" && t1.ids == t.ids + {n.body.blockId} else t1.ids == t.ids
  {
    hide MayStopTool, DeltaFits, MayAppend, CallAllowed, AcceptsTool, ValidArguments;
  }

  lemma IdsKeptStep(req: Requirements, t: Tools, ns: seq<Notice>)
    requires |ns| > 0 && IdsKept(t.ids, ToolIds(ns[..|ns| - 1])) && ToolStep(req, t, ns[|ns| - 1]).Advance?
    ensures IdsKept(ToolStep(req, t, ns[|ns| - 1]).next.ids, ToolIds(ns))
  {
    hide ToolStep, IdsKept, StartsTool;
    var n, before := ns[|ns| - 1], ToolIds(ns[..|ns| - 1]);
    StepIds(req, t, n);
    if StartsTool(n) { OneMoreId(t.ids, before, n.body.blockId); } else { assert before + [] == before; }
  }

  function LastReason(ns: seq<Notice>): string {
    if |ns| == 0 then ""
    else
      var n := ns[|ns| - 1];
      if n.kind == MESSAGE_DELTA && n.body.delta.stopReason != "" then n.body.delta.stopReason else LastReason(ns[..|ns| - 1])
  }

  lemma StepReason(req: Requirements, t: Tools, n: Notice)
    requires ToolStep(req, t, n).Advance?
    ensures ToolStep(req, t, n).next.stopReason
            == if n.kind == MESSAGE_DELTA && n.body.delta.stopReason != "" then n.body.delta.stopReason else t.stopReason
  {
    hide MayStartTool, MayStopTool, DeltaFits, MayAppend, CallAllowed;
  }

  /** At every point of an accepted stream: the stories, the counters, the identities and the
      stop reason. */
  lemma {:induction false} BlocksTell(req: Requirements, ns: seq<Notice>)
    requires Follow(req, NO_TOOLS, ns).Advance?
    ensures var t := Follow(req, NO_TOOLS, ns).next;
      AllTell(t, ns) && Counted(t, AllInputBytes(ns)) && IdsKept(t.ids, ToolIds(ns)) && t.stopReason == LastReason(ns)
  {
    if |ns| == 0 {
      assert StoppedTools(NO_TOOLS) == {} && ToolBlocks(NO_TOOLS) == {};
    } else {
      hide ToolStep, AllTell, Counted, IdsKept, ToolIds;
      var front, n := ns[..|ns| - 1], ns[|ns| - 1];
      BlocksTell(req, front);
      var t := Follow(req, NO_TOOLS, front).next;
      AllTellStep(req, t, ns);
      StepCounts(req, t, n, AllInputBytes(front));
      StepReason(req, t, n);
      IdsKeptStep(req, t, ns);
    }
  }

  // ---- Complete streams -------------------------------------------------------------------------------

  ghost predicate WholeStory(phases: seq<Phase>) {
    exists k: nat :: Story(phases, k, true)
  }

  /** Every block ran from start to stop; the tools counted are the tool blocks that started,
      each with an identity of its own; there are some exactly when the last stop reason says
      so; and the bytes charged are those of their inputs. */
  ghost predicate MessageWhole(req: Requirements, t: Tools, ns: seq<Notice>) {
    (forall i :: Phases(ns, i) != [] ==> WholeStory(Phases(ns, i)))
    && OwnIdentities(ToolIds(ns)) && t.tools == |ToolIds(ns)|
    && (ToolIds(ns) != [] <==> LastReason(ns) == TOOL_USE) && (req.toolMode == RequiredTools ==> ToolIds(ns) != [])
    && t.argumentBytes == AllInputBytes(ns) <= JsonScanner.MAX_ARGUMENTS
  }

  lemma AllStopped(t: Tools)
    requires forall i :: i in t.native ==> t.native[i].done
    ensures StoppedTools(t) == ToolBlocks(t)
  {
    forall i ensures i in StoppedTools(t) <==> i in ToolBlocks(t) {
      if i in t.native { assert t.native[i].done; }
    }
  }

  lemma StoppedStream(req: Requirements, ns: seq<Notice>)
    requires Follow(req, NO_TOOLS, ns).Advance? && MayStop(req, Follow(req, NO_TOOLS, ns).next)
    ensures MessageWhole(req, Follow(req, NO_TOOLS, ns).next, ns)
  {
    BlocksTell(req, ns);
    hide Follow, Phases, LastReason, AllInputBytes, ToolIds, OwnIdentities;
    var t := Follow(req, NO_TOOLS, ns).next;
    AllStopped(t);
    forall i | Phases(ns, i) != [] ensures WholeStory(Phases(ns, i)) {
      assert Tells(t.native[i], Phases(ns, i));
    }
  }
}
