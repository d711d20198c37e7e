/**
  Which Messages events the tool contract takes, said of the events alone: the checker's
  state is nowhere mentioned, only what was sent before.
 */
module MessagesShape {
  import opened GoText
  import opened CompletionContract
  import opened StreamEvents
  import opened Compact
  import opened MessagesStream
  import JsonScanner
  import Machines

  // ---- What was sent about a block -------------------------------------------------------

  /** The notice that started the block at an index. */
  function Opening(ns: seq<Notice>, index: int): Option<MessagesBody> {
    if |ns| == 0 then None
    else
      var n := ns[|ns| - 1];
      if About(n, index) && n.kind == START then Some(n.body) else Opening(ns[..|ns| - 1], index)
  }

  predicate IsPiece(n: Notice, index: int) {
    About(n, index) && n.kind == DELTA && n.body.delta.kind == "input_json_delta" && n.body.delta.partial.Some?
  }

  /** How many pieces of input followed, and what they are together. */
  function Pieces(ns: seq<Notice>, index: int): nat {
    if |ns| == 0 then 0 else Pieces(ns[..|ns| - 1], index) + (if IsPiece(ns[|ns| - 1], index) then 1 else 0)
  }

  function Joined(ns: seq<Notice>, index: int): bytes {
    if |ns| == 0 then ""
    else Joined(ns[..|ns| - 1], index) + (if IsPiece(ns[|ns| - 1], index) then ns[|ns| - 1].body.delta.partial.value else "")
  }

  predicate HasStopped(ns: seq<Notice>, index: int) {
    exists k :: 0 <= k < |ns| && About(ns[k], index) && ns[k].kind == STOP
  }

  /** The number of blocks that were started. */
  function Starts(ns: seq<Notice>): nat {
    if |ns| == 0 then 0 else Starts(ns[..|ns| - 1]) + (if ns[|ns| - 1].kind == START then 1 else 0)
  }

  function InitialInput(b: MessagesBody): bytes {
    if b.blockKind == TOOL_USE then b.input else ""
  }

  /** The input of a block: its pieces, or else what it began with. */
  function InputOf(ns: seq<Notice>, index: int, b: MessagesBody): bytes {
    if Pieces(ns, index) > 0 then Joined(ns, index) else InitialInput(b)
  }

  // ---- What may come next -------------------------------------------------------------------

  predicate MayOpen(req: Requirements, past: seq<Notice>, b: MessagesBody) {
    |b.blockId| <= MAX_IDENTITY && |b.blockName| <= MAX_IDENTITY && Starts(past) < MAX_TOOLS
    && (b.blockKind == TOOL_USE ==>
          (req.maxToolCalls > 0 ==> |ToolIds(past)| < req.maxToolCalls) && b.blockId !in ToolIds(past) && b.blockId != ""
          && AcceptsTool(req, b.blockName) && ValidArguments(b.input) && AllInputBytes(past) + |b.input| <= JsonScanner.MAX_ARGUMENTS)
  }

  /** A piece of the right kind, which for tool input is within the budget of the stream. */
  predicate MayGrow(past: seq<Notice>, b: MessagesBody, d: BlockDelta) {
    (d.kind == "text_delta" ==> b.blockKind == "text" && d.text.Some?)
    && (d.kind == "thinking_delta" ==> b.blockKind == "thinking" && d.thinking.Some?)
    && (d.kind == "signature_delta" ==> b.blockKind == "thinking" && d.signature.Some?)
    && (d.kind == "input_json_delta" ==>
          b.blockKind == TOOL_USE && d.partial.Some? && AllInputBytes(past) + |d.partial.value| <= JsonScanner.MAX_ARGUMENTS)
  }

  /** Tool input is a whole object, and the one the block began with unless that was empty. */
  ghost predicate MayClose(past: seq<Notice>, index: int, b: MessagesBody) {
    b.blockKind == TOOL_USE ==>
      var input := InputOf(past, index, b);
      ValidArguments(input) && (Pieces(past, index) > 0 && TrimSpace(b.input) != "{}" ==> SameArguments(b.input, input))
  }

  ghost predicate Fits(req: Requirements, past: seq<Notice>, n: Notice) {
    IsBlockKind(n.kind) ==>
      n.body.index.Some?
      && var i := n.body.index.value;
        if n.kind == START then 0 <= i < MAX_TOOLS && Opening(past, i).None? && MayOpen(req, past, n.body)
        else
          match Opening(past, i)
          case None => false
          case Some(b) => !HasStopped(past, i) && if n.kind == DELTA then MayGrow(past, b, n.body.delta) else MayClose(past, i, b)
  }

  /** Each event fits what came before it. */
  ghost predicate AllFit(req: Requirements, ns: seq<Notice>) {
    Machines.AllFit((past, n) => Fits(req, past, n), ns)
  }

  /** Every block has stopped, and there are tools exactly if the last stop reason says so. */
  predicate Ended(req: Requirements, ns: seq<Notice>) {
    (forall n :: n in ns && n.kind == START && n.body.index.Some? ==> HasStopped(ns, n.body.index.value))
    && (ToolIds(ns) != [] <==> LastReason(ns) == TOOL_USE) && (req.toolMode == RequiredTools ==> ToolIds(ns) != [])
  }

  // ---- The state of a block is what was sent about it ------------------------------------------

  function BlockOf(ns: seq<Notice>, index: int, b: MessagesBody): StreamCall {
    NewBlock(b).(initial := InitialInput(b), args := InputOf(ns, index, b), deltas := Pieces(ns, index) > 0, done := HasStopped(ns, index))
  }

  ghost predicate Shown(req: Requirements, t: Tools, ns: seq<Notice>, i: int) {
    match Opening(ns, i)
    case None => i !in t.native && Pieces(ns, i) == 0 && !HasStopped(ns, i)
    case Some(b) =>
      i in t.native && t.native[i] == BlockOf(ns, i, b) && (Pieces(ns, i) > 0 ==> b.blockKind == TOOL_USE)
      && (b.blockKind == TOOL_USE ==> b.blockId != "" && AcceptsTool(req, b.blockName))
  }

  ghost predicate AllShown(req: Requirements, t: Tools, ns: seq<Notice>) {
    t.callCount == Starts(ns) && t.argumentBytes == AllInputBytes(ns) && IdsKept(t.ids, ToolIds(ns))
    && forall i :: Shown(req, t, ns, i)
  }

  lemma StoppedMore(ns: seq<Notice>, index: int)
    requires |ns| > 0
    ensures HasStopped(ns, index) <==> HasStopped(ns[..|ns| - 1], index) || (About(ns[|ns| - 1], index) && ns[|ns| - 1].kind == STOP)
  {
    var front := ns[..|ns| - 1];
    if HasStopped(front, index) {
      var k :| 0 <= k < |front| && About(front[k], index) && front[k].kind == STOP;
      assert ns[k] == front[k];
    }
    if HasStopped(ns, index) {
      var k :| 0 <= k < |ns| && About(ns[k], index) && ns[k].kind == STOP;
      if k < |front| { assert front[k] == ns[k]; }
    }
  }

  /** An event about another block, or about none. */
  lemma ShownStays(req: Requirements, t: Tools, t1: Tools, ns: seq<Notice>, i: int)
    requires |ns| > 0 && Shown(req, t, ns[..|ns| - 1], i) && !About(ns[|ns| - 1], i)
    requires (i in t1.native <==> i in t.native) && (i in t.native ==> t1.native[i] == t.native[i])
    ensures Shown(req, t1, ns, i)
  {
    hide HasStopped, About;
    StoppedMore(ns, i);
    assert Joined(ns[..|ns| - 1], i) + "" == Joined(ns[..|ns| - 1], i);
  }

  lemma OpenFits(req: Requirements, t: Tools, ns: seq<Notice>)
    requires |ns| > 0 && ns[|ns| - 1].kind == START && ns[|ns| - 1].body.index.Some? && AllShown(req, t, ns[..|ns| - 1])
    ensures var past, n := ns[..|ns| - 1], ns[|ns| - 1];
      var r := StartBlock(req, t, n.body.index.value, n.body);
      (r.Advance? <==> Fits(req, past, n)) && (r.Advance? ==> Shown(req, r.next, ns, n.body.index.value))
  {
    hide AcceptsTool, ValidArguments, Starts, AllInputBytes, ToolIds, OwnIdentities, HasStopped;
    var past, n := ns[..|ns| - 1], ns[|ns| - 1];
    var i := n.body.index.value;
    assert Shown(req, t, past, i);
    StoppedMore(ns, i);
    assert n.body.blockId in t.ids <==> n.body.blockId in ToolIds(past);
  }

  lemma GrowFits(req: Requirements, t: Tools, ns: seq<Notice>)
    requires |ns| > 0 && ns[|ns| - 1].kind == DELTA && ns[|ns| - 1].body.index.Some? && AllShown(req, t, ns[..|ns| - 1])
    ensures var past, n := ns[..|ns| - 1], ns[|ns| - 1];
      var r := BlockStep(req, t, n);
      (r.Advance? <==> Fits(req, past, n)) && (r.Advance? ==> Shown(req, r.next, ns, n.body.index.value))
  {
    hide AcceptsTool, ValidArguments, Starts, AllInputBytes, ToolIds, IdsKept, HasStopped;
    var past, n := ns[..|ns| - 1], ns[|ns| - 1];
    var i := n.body.index.value;
    assert Shown(req, t, past, i);
    StoppedMore(ns, i);
    assert Joined(past, i) + "" == Joined(past, i);
    NoPieces(past, i);
  }

  lemma {:induction false} NoPieces(ns: seq<Notice>, i: int)
    ensures Pieces(ns, i) == 0 ==> Joined(ns, i) == ""
  {
    if |ns| > 0 { NoPieces(ns[..|ns| - 1], i); }
  }

  lemma CloseFits(req: Requirements, t: Tools, ns: seq<Notice>)
    requires |ns| > 0 && ns[|ns| - 1].kind == STOP && ns[|ns| - 1].body.index.Some? && AllShown(req, t, ns[..|ns| - 1])
    ensures var past, n := ns[..|ns| - 1], ns[|ns| - 1];
      var r := BlockStep(req, t, n);
      (r.Advance? <==> Fits(req, past, n)) && (r.Advance? ==> Shown(req, r.next, ns, n.body.index.value))
  {
    hide ValidArguments, SameArguments, Starts, AllInputBytes, ToolIds, IdsKept, HasStopped;
    var past, n := ns[..|ns| - 1], ns[|ns| - 1];
    var i := n.body.index.value;
    assert Shown(req, t, past, i);
    StoppedMore(ns, i);
    assert Joined(past, i) + "" == Joined(past, i);
  }

  // ---- All events ----------------------------------------------------------------------------

  /** An event leaves other blocks alone. */
  lemma StepElsewhere(req: Requirements, t: Tools, n: Notice, i: int)
    requires ToolStep(req, t, n).Advance? && !About(n, i)
    ensures var t1 := ToolStep(req, t, n).next; (i in t1.native <==> i in t.native) && (i in t.native ==> t1.native[i] == t.native[i])
  {
    hide MayStartTool, MayStopTool, DeltaFits, MayAppend, CallAllowed;
  }

  lemma StepCount(req: Requirements, t: Tools, n: Notice)
    requires ToolStep(req, t, n).Advance?
    ensures ToolStep(req, t, n).next.callCount == t.callCount + (if n.kind == START then 1 else 0)
  {
    hide MayStartTool, MayStopTool, DeltaFits, MayAppend, CallAllowed;
  }

  lemma BlockFits(req: Requirements, t: Tools, ns: seq<Notice>)
    requires |ns| > 0 && IsBlockKind(ns[|ns| - 1].kind) && AllShown(req, t, ns[..|ns| - 1])
    ensures var past, n := ns[..|ns| - 1], ns[|ns| - 1];
      (ToolStep(req, t, n).Advance? <==> Fits(req, past, n))
      && (ToolStep(req, t, n).Advance? ==> n.body.index.Some? && Shown(req, ToolStep(req, t, n).next, ns, n.body.index.value))
  {
    hide AllShown, Shown, MayOpen, MayGrow, MayClose, Opening, HasStopped, GrowBlock, StopBlock, StartBlock;
    var n := ns[|ns| - 1];
    if n.body.index.Some? {
      if n.kind == START { OpenFits(req, t, ns); } else if n.kind == DELTA { GrowFits(req, t, ns); } else { CloseFits(req, t, ns); }
    }
  }

  lemma StepFits(req: Requirements, t: Tools, ns: seq<Notice>)
    requires |ns| > 0 && AllShown(req, t, ns[..|ns| - 1])
    ensures var past, n := ns[..|ns| - 1], ns[|ns| - 1];
      var r := ToolStep(req, t, n);
      (r.Advance? <==> Fits(req, past, n)) && (r.Advance? ==> r.next.callCount == Starts(ns) && forall i :: Shown(req, r.next, ns, i))
  {
    hide Shown, BlockStep, IdsKept, MayOpen, MayGrow, MayClose, Opening, HasStopped;
    var past, n := ns[..|ns| - 1], ns[|ns| - 1];
    var r := ToolStep(req, t, n);
    if IsBlockKind(n.kind) { BlockFits(req, t, ns); }
    if r.Advance? {
      StepCount(req, t, n);
      forall i ensures Shown(req, r.next, ns, i) {
        assert Shown(req, t, past, i);
        if !About(n, i) {
          StepElsewhere(req, t, n, i);
          ShownStays(req, t, r.next, ns, i);
        }
      }
    }
  }

  /** The tool contract takes exactly the events that fit. */
  lemma {:induction false} TakesExactlyWhatFits(req: Requirements, ns: seq<Notice>)
    ensures Follow(req, NO_TOOLS, ns).Advance? <==> AllFit(req, ns)
    ensures Follow(req, NO_TOOLS, ns).Advance? ==> AllShown(req, Follow(req, NO_TOOLS, ns).next, ns)
  {
    if |ns| > 0 {
      hide ToolStep, Fits, AllFit, Shown, AllTell, Counted, IdsKept;
      var front := ns[..|ns| - 1];
      TakesExactlyWhatFits(req, front);
      Machines.AllFitMore((past, n) => Fits(req, past, n), ns);
      if Follow(req, NO_TOOLS, front).Advance? { StepFits(req, Follow(req, NO_TOOLS, front).next, ns); }
      if Follow(req, NO_TOOLS, ns).Advance? {
        BlocksTell(req, ns);
        CountedBytes(Follow(req, NO_TOOLS, ns).next, AllInputBytes(ns));
      }
    }
  }

  lemma CountedBytes(t: Tools, total: nat)
    requires Counted(t, total)
    ensures t.argumentBytes == total
  {
  }

  // ---- The end --------------------------------------------------------------------------------

  lemma {:induction false} OpeningWasSent(ns: seq<Notice>, i: int)
    ensures Opening(ns, i).Some? <==> exists n :: n in ns && About(n, i) && n.kind == START
  {
    if |ns| > 0 {
      var front, last := ns[..|ns| - 1], ns[|ns| - 1];
      OpeningWasSent(front, i);
      assert forall n :: n in ns <==> n in front || n == last;
    }
  }

  lemma AllStoppedIs(req: Requirements, t: Tools, ns: seq<Notice>)
    requires AllShown(req, t, ns)
    ensures (forall i :: i in t.native ==> t.native[i].done)
            <==> forall n :: n in ns && n.kind == START && n.body.index.Some? ==> HasStopped(ns, n.body.index.value)
  {
    hide HasStopped, IdsKept, Opening, InputOf;
    forall i ensures i in t.native <==> Opening(ns, i).Some? { assert Shown(req, t, ns, i); }
    if forall i :: i in t.native ==> t.native[i].done {
      forall n | n in ns && n.kind == START && n.body.index.Some? ensures HasStopped(ns, n.body.index.value) {
        var i := n.body.index.value;
        OpeningWasSent(ns, i);
        assert About(n, i) && Shown(req, t, ns, i) && t.native[i].done;
      }
    }
    if forall n :: n in ns && n.kind == START && n.body.index.Some? ==> HasStopped(ns, n.body.index.value) {
      forall i | i in t.native ensures t.native[i].done {
        OpeningWasSent(ns, i);
        assert Shown(req, t, ns, i);
      }
    }
  }

  /** message_stop is taken exactly when the stream has ended. */
  lemma StopsExactlyAtTheEnd(req: Requirements, ns: seq<Notice>)
    requires Follow(req, NO_TOOLS, ns).Advance?
    ensures MayStop(req, Follow(req, NO_TOOLS, ns).next) <==> Ended(req, ns)
  {
    hide Follow, AllShown, ToolIds, LastReason, HasStopped, AllTell;
    var t := Follow(req, NO_TOOLS, ns).next;
    TakesExactlyWhatFits(req, ns);
    BlocksTell(req, ns);
    AllStoppedIs(req, t, ns);
    if forall i :: i in t.native ==> t.native[i].done { AllStopped(t); }
  }
}
