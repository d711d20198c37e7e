/**
  Which Responses events the tool contract takes, said of the events alone.
 */
module ResponsesShape {
  import opened GoText
  import opened CompletionContract
  import opened StreamEvents
  import opened Compact
  import opened ResponsesStream
  import JsonScanner
  import Machines

  // ---- What was sent about a call ---------------------------------------------------------

  /** The identities of a call: the last ones given for it. */
  function IdGiven(ns: seq<Notice>, i: int): string {
    if |ns| == 0 then ""
    else
      var n, before := ns[|ns| - 1], IdGiven(ns[..|ns| - 1], i);
      if About(n, i) then Merged(Merged(before, ItemOf(n.body).id), n.body.itemId) else before
  }

  function NameGiven(ns: seq<Notice>, i: int): string {
    if |ns| == 0 then ""
    else
      var n, before := ns[|ns| - 1], NameGiven(ns[..|ns| - 1], i);
      if About(n, i) then Merged(before, ItemOf(n.body).name) else before
  }

  function CallIdGiven(ns: seq<Notice>, i: int): string {
    if |ns| == 0 then ""
    else
      var n, before := ns[|ns| - 1], CallIdGiven(ns[..|ns| - 1], i);
      if About(n, i) then Merged(before, ItemOf(n.body).callId) else before
  }

  predicate Sent(ns: seq<Notice>, i: int, phase: Phase) {
    phase in Phases(ns, i)
  }

  /** The arguments it was completed with. */
  function Completed(ns: seq<Notice>, i: int): bytes {
    if |ns| == 0 then ""
    else
      var n := ns[|ns| - 1];
      if About(n, i) && n.kind == ARGUMENTS_DONE then FinalArguments(n.body) else Completed(ns[..|ns| - 1], i)
  }

  /** The arguments of a call: its deltas, or else what it was completed with. */
  function ArgumentsOf(ns: seq<Notice>, i: int): bytes {
    if Sent(ns, i, Delta) then Streamed(ns, i) else Completed(ns, i)
  }

  /** What an event is charged for: a delta, and completed arguments that no delta came before. */
  function Charge(past: seq<Notice>, n: Notice): nat {
    if !Concerns(n) || n.body.index.None? then 0
    else if n.kind == DELTA && n.body.delta.Piece? then |n.body.delta.text|
    else if n.kind == ARGUMENTS_DONE && !Sent(past, n.body.index.value, Delta) then |FinalArguments(n.body)|
    else 0
  }

  function Charged(ns: seq<Notice>): nat {
    if |ns| == 0 then 0 else Charged(ns[..|ns| - 1]) + Charge(ns[..|ns| - 1], ns[|ns| - 1])
  }

  /** The number of calls announced. */
  function Announced(ns: seq<Notice>): nat {
    if |ns| == 0 then 0
    else Announced(ns[..|ns| - 1]) + (if Concerns(ns[|ns| - 1]) && ns[|ns| - 1].kind == ADDED then 1 else 0)
  }

  // ---- What may come next ----------------------------------------------------------------------

  /** Whatever identity an event gives agrees with those given before. */
  predicate IdentityFits(past: seq<Notice>, i: int, n: Notice) {
    var item := ItemOf(n.body);
    Agrees(IdGiven(past, i), item.id) && Agrees(Merged(IdGiven(past, i), item.id), n.body.itemId)
    && Agrees(NameGiven(past, i), item.name) && Agrees(CallIdGiven(past, i), item.callId)
    && |item.id| <= MAX_IDENTITY && |n.body.itemId| <= MAX_IDENTITY && |item.name| <= MAX_IDENTITY && |item.callId| <= MAX_IDENTITY
  }

  /** The first event about a call. */
  predicate MayAnnounce(req: Requirements, past: seq<Notice>, n: Notice) {
    var item := ItemOf(n.body);
    Announced(past) < MAX_TOOLS && (req.maxToolCalls > 0 ==> Announced(past) < req.maxToolCalls)
    && Merged(item.id, n.body.itemId) != "" && item.callId != "" && AcceptsTool(req, item.name)
  }

  predicate MayExtend(past: seq<Notice>, i: int, n: Notice) {
    !Sent(past, i, ArgumentsDone) && n.body.delta.Piece? && Charged(past) + |n.body.delta.text| <= JsonScanner.MAX_ARGUMENTS
  }

  /** Completed arguments are whole, and those of the deltas if there were any. */
  ghost predicate MayFill(past: seq<Notice>, i: int, n: Notice) {
    var arguments := FinalArguments(n.body);
    !Sent(past, i, ArgumentsDone) && ValidArguments(arguments)
    && if Sent(past, i, Delta) then SameArguments(Streamed(past, i), arguments) else Charged(past) + |arguments| <= JsonScanner.MAX_ARGUMENTS
  }

  ghost predicate MayClose(past: seq<Notice>, i: int, n: Notice) {
    var item := ItemOf(n.body);
    Sent(past, i, ArgumentsDone) && !Sent(past, i, ItemDone)
    && ValidArguments(FinalArguments(n.body)) && SameArguments(ArgumentsOf(past, i), FinalArguments(n.body))
    && item.id != "" && item.callId != "" && item.name != ""
  }

  ghost predicate CallFits(req: Requirements, past: seq<Notice>, i: int, n: Notice) {
    0 <= i < MAX_TOOLS && req.toolMode != NoTools && IdentityFits(past, i, n)
    && if Phases(past, i) == [] then n.kind == ADDED && MayAnnounce(req, past, n)
       else if n.kind == DELTA then MayExtend(past, i, n)
       else if n.kind == ARGUMENTS_DONE then MayFill(past, i, n)
       else n.kind == ITEM_DONE && MayClose(past, i, n)
  }

  ghost predicate Fits(req: Requirements, past: seq<Notice>, n: Notice) {
    IsToolKind(n.kind) ==> n.body.index.Some? && !n.body.item.BadItem? && (Concerns(n) ==> CallFits(req, past, n.body.index.value, n))
  }

  ghost predicate AllFit(req: Requirements, ns: seq<Notice>) {
    Machines.AllFit((past, n) => Fits(req, past, n), ns)
  }

  /** The final output has exactly the calls that were sent, each closed and with its own
      identities and arguments. */
  ghost predicate OutputFits(ns: seq<Notice>, output: seq<OutputItem>) {
    (forall i :: 0 <= i < |output| && output[i].kind == "function_call" ==> Sent(ns, i, ItemDone))
    && forall i :: Phases(ns, i) != [] ==>
         0 <= i < |output| && Sent(ns, i, ItemDone)
         && output[i] == OutputItem("function_call", IdGiven(ns, i), NameGiven(ns, i), CallIdGiven(ns, i), output[i].arguments)
         && SameArguments(ArgumentsOf(ns, i), output[i].arguments)
  }

  // ---- The state of a call is what was sent about it ----------------------------------------------

  function CallOf(ns: seq<Notice>, i: int): StreamCall {
    NO_CALL.(id := IdGiven(ns, i), name := NameGiven(ns, i), callId := CallIdGiven(ns, i), args := ArgumentsOf(ns, i),
             deltas := Sent(ns, i, Delta) || Sent(ns, i, ArgumentsDone), started := true,
             argumentsDone := Sent(ns, i, ArgumentsDone), itemDone := Sent(ns, i, ItemDone), done := Sent(ns, i, ItemDone))
  }

  /** A call is closed after it is completed, and has the arguments of the events that give any. */
  predicate InOrder(ns: seq<Notice>, i: int) {
    (Sent(ns, i, ItemDone) ==> Sent(ns, i, ArgumentsDone))
    && (!Sent(ns, i, Delta) ==> Streamed(ns, i) == "") && (!Sent(ns, i, ArgumentsDone) ==> Completed(ns, i) == "")
  }

  ghost predicate Shown(t: Tools, ns: seq<Notice>, i: int) {
    (i in t.native <==> Phases(ns, i) != [])
    && (i in t.native ==> t.native[i] == CallOf(ns, i))
    && (i !in t.native ==> IdGiven(ns, i) == "" && NameGiven(ns, i) == "" && CallIdGiven(ns, i) == "" && Completed(ns, i) == "" && Streamed(ns, i) == "")
    && InOrder(ns, i)
  }

  ghost predicate AllShown(t: Tools, ns: seq<Notice>) {
    t.callCount == |t.native| == Announced(ns) && t.argumentBytes == Charged(ns) && forall i :: Shown(t, ns, i)
  }

  /** An event about another call, or about none. */
  lemma ShownStays(t: Tools, t1: Tools, ns: seq<Notice>, i: int)
    requires |ns| > 0 && Shown(t, ns[..|ns| - 1], i) && !About(ns[|ns| - 1], i)
    requires (i in t1.native <==> i in t.native) && (i in t.native ==> t1.native[i] == t.native[i])
    ensures Shown(t1, ns, i)
  {
    hide About;
    var past := ns[..|ns| - 1];
    assert Phases(past, i) + [] == Phases(past, i) && Streamed(past, i) + "" == Streamed(past, i);
  }

  // ---- One event -------------------------------------------------------------------------------

  /** The call before an event, with the identities that the event gives. */
  lemma Before(t: Tools, past: seq<Notice>, i: int, n: Notice)
    requires Shown(t, past, i)
    ensures var c := CallAt(t.native, i);
      c.id == IdGiven(past, i) && c.name == NameGiven(past, i) && c.callId == CallIdGiven(past, i)
      && (IdentityAgrees(c, ItemOf(n.body), n.body.itemId) <==> IdentityFits(past, i, n))
  {
    hide Agrees, Merged, ItemOf;
  }

  lemma UseFits(req: Requirements, t: Tools, past: seq<Notice>, i: int)
    requires AllShown(t, past)
    ensures MayUse(req, t, i)
            <==> 0 <= i < MAX_TOOLS && req.toolMode != NoTools
                 && (Phases(past, i) == [] ==> Announced(past) < MAX_TOOLS && (req.maxToolCalls > 0 ==> Announced(past) < req.maxToolCalls))
  {
    assert Shown(t, past, i);
  }

  /** The part of an event's conditions that is not about identities and numbers of calls. */
  ghost predicate Progresses(req: Requirements, past: seq<Notice>, i: int, n: Notice) {
    if Phases(past, i) == [] then
      n.kind == ADDED && Merged(Merged(IdGiven(past, i), ItemOf(n.body).id), n.body.itemId) != ""
      && Merged(CallIdGiven(past, i), ItemOf(n.body).callId) != "" && AcceptsTool(req, Merged(NameGiven(past, i), ItemOf(n.body).name))
    else if n.kind == DELTA then MayExtend(past, i, n)
    else if n.kind == ARGUMENTS_DONE then MayFill(past, i, n)
    else n.kind == ITEM_DONE && MayClose(past, i, n)
  }

  lemma AdvanceFits(req: Requirements, t: Tools, past: seq<Notice>, i: int, n: Notice)
    requires Shown(t, past, i) && t.argumentBytes == Charged(past) && IsToolKind(n.kind)
    ensures Advanced(req, Identified(CallAt(t.native, i), ItemOf(n.body), n.body.itemId), t.argumentBytes, n).Now? <==> Progresses(req, past, i, n)
  {
    hide AcceptsTool, ValidArguments, SameArguments, Merged, ItemOf, FinalArguments, Phases, Streamed, Completed, IdGiven, NameGiven, CallIdGiven, Charged;
  }

  lemma CallFitsIs(req: Requirements, t: Tools, past: seq<Notice>, i: int, n: Notice)
    requires AllShown(t, past)
    ensures CallFits(req, past, i, n) <==> MayUse(req, t, i) && IdentityFits(past, i, n) && Progresses(req, past, i, n)
  {
    hide IdentityFits, MayUse, MayExtend, MayFill, MayClose, ItemOf;
    UseFits(req, t, past, i);
    assert Shown(t, past, i);
  }

  /** What was sent with one event more. */
  lemma SentMore(ns: seq<Notice>, i: int, phase: Phase)
    requires |ns| > 0 && About(ns[|ns| - 1], i)
    ensures Sent(ns, i, phase) <==> Sent(ns[..|ns| - 1], i, phase) || phase == PhaseOf(ns[|ns| - 1].kind)
    ensures Phases(ns, i) != []
  {
    hide About, PhaseOf;
  }

  /** The call as it was, with the identities as they are now. */
  function Renamed(ns: seq<Notice>, i: int): StreamCall
    requires |ns| > 0
  {
    var past := ns[..|ns| - 1];
    (if Phases(past, i) == [] then NO_CALL else CallOf(past, i)).(id := IdGiven(ns, i), name := NameGiven(ns, i), callId := CallIdGiven(ns, i))
  }

  lemma RenamedIs(t: Tools, ns: seq<Notice>, i: int)
    requires |ns| > 0 && About(ns[|ns| - 1], i) && Shown(t, ns[..|ns| - 1], i)
    ensures Identified(CallAt(t.native, i), ItemOf(ns[|ns| - 1].body), ns[|ns| - 1].body.itemId) == Renamed(ns, i)
  {
    hide Merged, ItemOf, About, Phases, Sent, Streamed, Completed;
  }

  lemma AddedShows(req: Requirements, ns: seq<Notice>, i: int, bytes: nat)
    requires |ns| > 0 && About(ns[|ns| - 1], i) && InOrder(ns[..|ns| - 1], i) && ns[|ns| - 1].kind == ADDED
    requires Advanced(req, Renamed(ns, i), bytes, ns[|ns| - 1]).Now?
    ensures Advanced(req, Renamed(ns, i), bytes, ns[|ns| - 1]) == Now(CallOf(ns, i), 0) && InOrder(ns, i)
  {
    hide AcceptsTool, IdGiven, NameGiven, CallIdGiven, FinalArguments, ArgumentsMatch;
    var past := ns[..|ns| - 1];
    assert Streamed(past, i) + "" == Streamed(past, i);
  }

  lemma DeltaShows(req: Requirements, ns: seq<Notice>, i: int, bytes: nat)
    requires |ns| > 0 && About(ns[|ns| - 1], i) && InOrder(ns[..|ns| - 1], i) && ns[|ns| - 1].kind == DELTA
    requires Advanced(req, Renamed(ns, i), bytes, ns[|ns| - 1]).Now?
    ensures Advanced(req, Renamed(ns, i), bytes, ns[|ns| - 1]) == Now(CallOf(ns, i), |ns[|ns| - 1].body.delta.text|) && InOrder(ns, i)
  {
    hide AcceptsTool, IdGiven, NameGiven, CallIdGiven, FinalArguments, ArgumentsMatch;
  }

  lemma FilledShows(req: Requirements, ns: seq<Notice>, i: int, bytes: nat)
    requires |ns| > 0 && About(ns[|ns| - 1], i) && InOrder(ns[..|ns| - 1], i) && ns[|ns| - 1].kind == ARGUMENTS_DONE
    requires Advanced(req, Renamed(ns, i), bytes, ns[|ns| - 1]).Now?
    ensures Advanced(req, Renamed(ns, i), bytes, ns[|ns| - 1])
            == Now(CallOf(ns, i), if Sent(ns[..|ns| - 1], i, Delta) then 0 else |FinalArguments(ns[|ns| - 1].body)|)
    ensures InOrder(ns, i)
  {
    hide AcceptsTool, IdGiven, NameGiven, CallIdGiven, FinalArguments, ArgumentsMatch;
    var past := ns[..|ns| - 1];
    assert Streamed(past, i) + "" == Streamed(past, i) && "" + FinalArguments(ns[|ns| - 1].body) == FinalArguments(ns[|ns| - 1].body);
  }

  lemma ClosedShows(req: Requirements, ns: seq<Notice>, i: int, bytes: nat)
    requires |ns| > 0 && About(ns[|ns| - 1], i) && InOrder(ns[..|ns| - 1], i) && ns[|ns| - 1].kind == ITEM_DONE
    requires Advanced(req, Renamed(ns, i), bytes, ns[|ns| - 1]).Now?
    ensures Advanced(req, Renamed(ns, i), bytes, ns[|ns| - 1]) == Now(CallOf(ns, i), 0) && InOrder(ns, i)
  {
    hide AcceptsTool, IdGiven, NameGiven, CallIdGiven, FinalArguments, ArgumentsMatch;
    var past := ns[..|ns| - 1];
    assert Streamed(past, i) + "" == Streamed(past, i);
  }

  lemma AdvanceShows(req: Requirements, t: Tools, ns: seq<Notice>, i: int)
    requires |ns| > 0 && About(ns[|ns| - 1], i) && Shown(t, ns[..|ns| - 1], i)
    requires Advanced(req, Identified(CallAt(t.native, i), ItemOf(ns[|ns| - 1].body), ns[|ns| - 1].body.itemId), t.argumentBytes, ns[|ns| - 1]).Now?
    ensures var past, n := ns[..|ns| - 1], ns[|ns| - 1];
      Advanced(req, Identified(CallAt(t.native, i), ItemOf(n.body), n.body.itemId), t.argumentBytes, n) == Now(CallOf(ns, i), Charge(past, n))
    ensures InOrder(ns, i)
  {
    hide CallOf, Advanced, Identified, Renamed, Sent, ItemOf, IdGiven, NameGiven, CallIdGiven, FinalArguments, Phases, Streamed, Completed;
    var n, b := ns[|ns| - 1], t.argumentBytes;
    RenamedIs(t, ns, i);
    if n.kind == ADDED { AddedShows(req, ns, i, b); }
    else if n.kind == DELTA { NotPiece(req, Renamed(ns, i), b, n); DeltaShows(req, ns, i, b); }
    else if n.kind == ARGUMENTS_DONE { FilledShows(req, ns, i, b); }
    else { ClosedShows(req, ns, i, b); }
  }

  lemma NotPiece(req: Requirements, call: StreamCall, b: nat, n: Notice)
    requires n.kind == DELTA && Advanced(req, call, b, n).Now?
    ensures n.body.delta.Piece?
  {
  }

  // ---- All events ----------------------------------------------------------------------------

  lemma CallStepFits(req: Requirements, t: Tools, ns: seq<Notice>)
    requires |ns| > 0 && Concerns(ns[|ns| - 1]) && ns[|ns| - 1].body.index.Some? && AllShown(t, ns[..|ns| - 1])
    ensures var past, n := ns[..|ns| - 1], ns[|ns| - 1];
      var i := n.body.index.value;
      var r := CallStep(req, t, i, n);
      (r.Advance? <==> CallFits(req, past, i, n))
      && (r.Advance? ==> r.next == t.(native := t.native[i := CallOf(ns, i)], callCount := CallsAfter(t.native, i, t.callCount),
                                      argumentBytes := t.argumentBytes + Charge(past, n))
                         && InOrder(ns, i) && (i !in t.native <==> n.kind == ADDED))
  {
    hide AllShown, Shown, MayUse, CallFits, IdentityAgrees, IdentityFits, Progresses, Advanced, CallOf, InOrder, Phases, Identified, Charge, ItemOf;
    var past, n := ns[..|ns| - 1], ns[|ns| - 1];
    var i := n.body.index.value;
    ShownAt(t, past, i);
    Before(t, past, i, n);
    CallFitsIs(req, t, past, i, n);
    AdvanceFits(req, t, past, i, n);
    if CallStep(req, t, i, n).Advance? {
      AdvanceShows(req, t, ns, i);
      AnnouncedFirst(req, t, past, i, n);
    }
  }

  lemma ShownAt(t: Tools, ns: seq<Notice>, i: int)
    requires AllShown(t, ns)
    ensures Shown(t, ns, i) && t.argumentBytes == Charged(ns)
  {
  }

  lemma AnnouncedFirst(req: Requirements, t: Tools, past: seq<Notice>, i: int, n: Notice)
    requires Shown(t, past, i) && Progresses(req, past, i, n) && IsToolKind(n.kind)
    ensures i !in t.native <==> n.kind == ADDED
  {
    hide MayExtend, MayFill, MayClose, Phases, CallOf, InOrder;
  }

  lemma StepShows(t: Tools, t1: Tools, ns: seq<Notice>)
    requires |ns| > 0 && AllShown(t, ns[..|ns| - 1])
    requires var past, n := ns[..|ns| - 1], ns[|ns| - 1];
      if Concerns(n) then
        n.body.index.Some?
        && var i := n.body.index.value;
          t1 == t.(native := t.native[i := CallOf(ns, i)], callCount := CallsAfter(t.native, i, t.callCount),
                   argumentBytes := t.argumentBytes + Charge(past, n))
          && InOrder(ns, i) && (i !in t.native <==> n.kind == ADDED)
      else t1 == t
    ensures AllShown(t1, ns)
  {
    hide CallOf, InOrder, Phases, IdGiven, NameGiven, CallIdGiven, Completed, Streamed, Sent;
    var past, n := ns[..|ns| - 1], ns[|ns| - 1];
    if Concerns(n) { OneMoreKey(t.native, n.body.index.value, CallOf(ns, n.body.index.value)); }
    forall i ensures Shown(t1, ns, i) {
      assert Shown(t, past, i);
      if About(n, i) { SentMore(ns, i, Added); } else { ShownStays(t, t1, ns, i); }
    }
  }

  lemma OneMoreKey(m: map<int, StreamCall>, i: int, c: StreamCall)
    ensures |m[i := c]| == if i in m then |m| else |m| + 1
  {
    assert m[i := c].Keys == m.Keys + {i};
    assert |m| == |m.Keys| && |m[i := c]| == |m[i := c].Keys|;
  }

  lemma StepFits(req: Requirements, t: Tools, ns: seq<Notice>)
    requires |ns| > 0 && AllShown(t, ns[..|ns| - 1])
    ensures var past, n := ns[..|ns| - 1], ns[|ns| - 1];
      var r := ToolStep(req, t, n);
      (r.Advance? <==> Fits(req, past, n)) && (r.Advance? ==> AllShown(r.next, ns))
  {
    hide AllShown, CallStep, CallFits, Charge, CallOf, InOrder;
    var n := ns[|ns| - 1];
    if Concerns(n) && n.body.index.Some? { CallStepFits(req, t, ns); }
    if ToolStep(req, t, n).Advance? { StepShows(t, ToolStep(req, t, n).next, ns); }
  }

  /** The tool contract takes exactly the events that fit. */
  lemma {:induction false} TakesExactlyWhatFits(req: Requirements, ns: seq<Notice>)
    ensures Follow(req, NO_TOOLS, ns).Advance? <==> AllFit(req, ns)
    ensures Follow(req, NO_TOOLS, ns).Advance? ==> AllShown(Follow(req, NO_TOOLS, ns).next, ns)
  {
    if |ns| > 0 {
      hide ToolStep, Fits, AllFit, AllShown;
      var front := ns[..|ns| - 1];
      TakesExactlyWhatFits(req, front);
      Machines.AllFitMore((past, n) => Fits(req, past, n), ns);
      if Follow(req, NO_TOOLS, front).Advance? { StepFits(req, Follow(req, NO_TOOLS, front).next, ns); }
    }
  }

  // ---- The end --------------------------------------------------------------------------------

  /** The final output is taken exactly when it fits what was sent. */
  lemma MatchesExactlyWhatFits(req: Requirements, ns: seq<Notice>, output: seq<OutputItem>)
    requires Follow(req, NO_TOOLS, ns).Advance?
    ensures OutputMatches(Follow(req, NO_TOOLS, ns).next, output) <==> OutputFits(ns, output)
  {
    hide Follow, Phases, Sent, ArgumentsOf, IdGiven, NameGiven, CallIdGiven, SameArguments, InOrder, Completed, Streamed;
    TakesExactlyWhatFits(req, ns);
    var t := Follow(req, NO_TOOLS, ns).next;
    forall i ensures i in t.native <==> Phases(ns, i) != [] { assert Shown(t, ns, i); }
    forall i | i in t.native ensures t.native[i] == CallOf(ns, i) { assert Shown(t, ns, i); }
    NothingSent(ns);
  }

  lemma NothingSent(ns: seq<Notice>)
    ensures forall i, p :: Sent(ns, i, p) ==> Phases(ns, i) != []
  {
  }
}
