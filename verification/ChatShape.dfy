/** Which Chat chunks the tool contract takes, said of the chunks alone. */
module ChatShape {
  // The choices of all chunks are read as a sequence of bits: a choice is mentioned, a call is
  // added to, an older call is added to, a choice is over.

  import opened GoText
  import opened CompletionContract
  import opened StreamEvents
  import opened ChatStream
  import JsonScanner
  import Machines

  datatype Bit =
    | Said(choice: int, payload: bool)
    | Asked(choice: int, delta: CallDelta)
    | AskedOld(choice: int, legacy: LegacyDelta)
    | Over(choice: int, reason: string)

  function Asks(i: int, calls: seq<CallDelta>): seq<Bit> {
    if |calls| == 0 then [] else Asks(i, calls[..|calls| - 1]) + [Asked(i, calls[|calls| - 1])]
  }

  /** The parts of one choice of one chunk, in the order they count. */
  function BitsOf(d: ChatChoice): seq<Bit> {
    Body(d) + (if Ends(d) then [Over(IndexOf(d), d.finish.value)] else [])
  }

  function Body(d: ChatChoice): seq<Bit> {
    var i := IndexOf(d);
    [Said(i, d.content.Piece? || d.refusal.Piece?)] + Asks(i, d.calls) + (if d.legacy.Some? then [AskedOld(i, d.legacy.value)] else [])
  }

  function Bits(ds: seq<ChatChoice>): seq<Bit> {
    if |ds| == 0 then [] else Bits(ds[..|ds| - 1]) + BitsOf(ds[|ds| - 1])
  }

  // ---- What was sent about a choice and its calls ------------------------------------------

  /** The call slot of a choice that a bit is about. */
  function Slot(b: Bit): Option<int> {
    match b
    case Asked(_, d) => d.index
    case AskedOld(_, _) => Some(LEGACY_SLOT)
    case _ => None
  }

  predicate About(b: Bit, i: int, a: int) {
    b.choice == i && Slot(b) == Some(a)
  }

  function IdSent(bs: seq<Bit>, i: int, a: int): string {
    if |bs| == 0 then ""
    else
      var b := bs[|bs| - 1];
      IdSent(bs[..|bs| - 1], i, a) + (if About(b, i, a) && b.Asked? then b.delta.id else "")
  }

  function NameSent(bs: seq<Bit>, i: int, a: int): string {
    if |bs| == 0 then ""
    else
      var b := bs[|bs| - 1];
      NameSent(bs[..|bs| - 1], i, a) + (if !About(b, i, a) then "" else if b.Asked? then b.delta.name else b.legacy.name)
  }

  function KindSent(bs: seq<Bit>, i: int, a: int): string {
    if |bs| == 0 then ""
    else
      var b := bs[|bs| - 1];
      if !About(b, i, a) || (b.Asked? && b.delta.kind == "") then KindSent(bs[..|bs| - 1], i, a)
      else if b.Asked? then b.delta.kind else "legacy"
  }

  function PieceOf(b: Bit): Piece {
    match b
    case Asked(_, d) => d.arguments
    case AskedOld(_, d) => d.arguments
    case _ => Missing
  }

  function ArgumentsSent(bs: seq<Bit>, i: int, a: int): bytes {
    if |bs| == 0 then ""
    else
      var b := bs[|bs| - 1];
      ArgumentsSent(bs[..|bs| - 1], i, a) + (if About(b, i, a) && PieceOf(b).Piece? then PieceOf(b).text else "")
  }

  predicate HasArguments(bs: seq<Bit>, i: int, a: int) {
    |bs| > 0 && (HasArguments(bs[..|bs| - 1], i, a) || (About(bs[|bs| - 1], i, a) && PieceOf(bs[|bs| - 1]).Piece?))
  }

  /** The calls of a choice. */
  function Slots(bs: seq<Bit>, i: int): set<int> {
    if |bs| == 0 then {}
    else
      var b := bs[|bs| - 1];
      Slots(bs[..|bs| - 1], i) + (if b.choice == i && Slot(b).Some? then {Slot(b).value} else {})
  }

  predicate IsOld(bs: seq<Bit>, i: int) {
    |bs| > 0 && (IsOld(bs[..|bs| - 1], i) || (bs[|bs| - 1].AskedOld? && bs[|bs| - 1].choice == i))
  }

  predicate IsOver(bs: seq<Bit>, i: int) {
    |bs| > 0 && (IsOver(bs[..|bs| - 1], i) || (bs[|bs| - 1].Over? && bs[|bs| - 1].choice == i))
  }

  predicate HasPayload(bs: seq<Bit>, i: int) {
    |bs| > 0 && (HasPayload(bs[..|bs| - 1], i) || (bs[|bs| - 1] == Said(i, true)))
  }

  /** The calls of all choices together, and the bytes of their arguments. */
  function CallTotal(bs: seq<Bit>): nat {
    if |bs| == 0 then 0
    else
      var past, b := bs[..|bs| - 1], bs[|bs| - 1];
      CallTotal(past) + (if Slot(b).Some? && Slot(b).value !in Slots(past, b.choice) then 1 else 0)
  }

  function Charged(bs: seq<Bit>): nat {
    if |bs| == 0 then 0
    else Charged(bs[..|bs| - 1]) + (if PieceOf(bs[|bs| - 1]).Piece? then |PieceOf(bs[|bs| - 1]).text| else 0)
  }

  function IdsOf(bs: seq<Bit>, i: int): set<string> {
    set a | a in Slots(bs, i) && KindSent(bs, i, a) != "legacy" :: IdSent(bs, i, a)
  }

  /** The identities of the calls of choices that are over. */
  function TakenIds(bs: seq<Bit>): set<string> {
    if |bs| == 0 then {}
    else
      var past, b := bs[..|bs| - 1], bs[|bs| - 1];
      TakenIds(past) + (if b.Over? then IdsOf(past, b.choice) else {})
  }

  // ---- What may come next -------------------------------------------------------------------

  predicate PieceFits(past: seq<Bit>, piece: Piece) {
    !piece.NotText? && (piece.Piece? ==> Charged(past) + |piece.text| <= JsonScanner.MAX_ARGUMENTS)
  }

  predicate MayAsk(req: Requirements, past: seq<Bit>, i: int, d: CallDelta) {
    !IsOld(past, i) && d.index.Some? && req.toolMode != NoTools
    && var a := d.index.value;
      0 <= a < MAX_TOOLS
      && (a !in Slots(past, i) ==> CallTotal(past) < MAX_TOOLS && (req.maxToolCalls > 0 ==> |Slots(past, i)| < req.maxToolCalls))
      && |IdSent(past, i, a)| + |d.id| <= MAX_IDENTITY && |NameSent(past, i, a)| + |d.name| <= MAX_IDENTITY
      && (d.kind == "" || KindSent(past, i, a) == "" || KindSent(past, i, a) == d.kind) && PieceFits(past, d.arguments)
  }

  predicate MayAskOld(past: seq<Bit>, i: int, d: LegacyDelta) {
    (IsOld(past, i) || Slots(past, i) == {}) && (LEGACY_SLOT !in Slots(past, i) ==> CallTotal(past) < MAX_TOOLS)
    && |NameSent(past, i, LEGACY_SLOT)| + |d.name| <= MAX_IDENTITY && PieceFits(past, d.arguments)
  }

  /** A call that is whole when its choice ends. */
  predicate SlotWhole(req: Requirements, past: seq<Bit>, i: int, a: int) {
    AcceptsTool(req, NameSent(past, i, a)) && ValidArguments(ArgumentsSent(past, i, a))
    && (KindSent(past, i, a) == "legacy"
        || (KindSent(past, i, a) == "function" && IdSent(past, i, a) != "" && IdSent(past, i, a) !in TakenIds(past)))
  }

  predicate ModernSlot(past: seq<Bit>, i: int, a: int) {
    a in Slots(past, i) && KindSent(past, i, a) != "legacy"
  }

  /** Without calls, text where choices are counted; with calls, a reason that says so, and
      calls that are whole and have identities of their own. */
  ghost predicate MayBeOver(req: Requirements, past: seq<Bit>, i: int, reason: string) {
    if Slots(past, i) == {} then
      req.toolMode != RequiredTools && !ToolReason(reason) && (req.expectedChoices > 0 ==> HasPayload(past, i))
    else
      ToolReason(reason) && (forall a :: a in Slots(past, i) ==> SlotWhole(req, past, i, a))
      && forall a, b :: ModernSlot(past, i, a) && ModernSlot(past, i, b) && a != b ==> IdSent(past, i, a) != IdSent(past, i, b)
  }

  ghost predicate Fits(req: Requirements, past: seq<Bit>, b: Bit) {
    match b
    case Said(i, _) => !IsOver(past, i)
    case Asked(i, d) => MayAsk(req, past, i, d)
    case AskedOld(i, d) => MayAskOld(past, i, d)
    case Over(i, reason) => MayBeOver(req, past, i, reason)
  }

  ghost predicate AllFit(req: Requirements, bs: seq<Bit>) {
    Machines.AllFit((past, b) => Fits(req, past, b), bs)
  }

  /** What each choice of a chunk must be on its own. */
  predicate Good(req: Requirements, d: ChatChoice) {
    IndexGood(req, d) && !d.content.NotText? && !d.refusal.NotText?
  }

  predicate AllGood(req: Requirements, ds: seq<ChatChoice>) {
    forall k :: 0 <= k < |ds| ==> Good(req, ds[k])
  }

  // ---- The state is what was sent -------------------------------------------------------------

  function CallOf(bs: seq<Bit>, i: int, a: int): StreamCall {
    NO_CALL.(id := IdSent(bs, i, a), name := NameSent(bs, i, a), kind := KindSent(bs, i, a), args := ArgumentsSent(bs, i, a),
             deltas := HasArguments(bs, i, a))
  }

  ghost predicate ChoiceShown(c: StreamChoice, bs: seq<Bit>, i: int) {
    c.payload == HasPayload(bs, i) && c.finished == IsOver(bs, i) && c.legacy == IsOld(bs, i) && c.calls.Keys == Slots(bs, i)
    && forall a :: a in c.calls ==> c.calls[a] == CallOf(bs, i, a)
  }

  ghost predicate WorkShown(w: Work, bs: seq<Bit>, i: int) {
    ChoiceShown(w.choice, bs, i) && w.callCount == CallTotal(bs) && w.argumentBytes == Charged(bs)
  }

  ghost predicate OthersShown(t: Tools, bs: seq<Bit>, i: int) {
    t.ids == TakenIds(bs) && forall j :: j != i ==> ChoiceShown(ChoiceAt(t, j), bs, j)
  }

  ghost predicate AllShown(t: Tools, bs: seq<Bit>) {
    t.ids == TakenIds(bs) && t.callCount == CallTotal(bs) && t.argumentBytes == Charged(bs)
    && forall i :: ChoiceShown(ChoiceAt(t, i), bs, i)
  }

  /** Nothing was sent about a call that is not there. */
  lemma {:induction false} NothingSent(bs: seq<Bit>, i: int, a: int)
    requires a !in Slots(bs, i)
    ensures CallOf(bs, i, a) == NO_CALL
  {
    if |bs| > 0 { NothingSent(bs[..|bs| - 1], i, a); }
  }

  /** A call before it is added to. */
  lemma CallBefore(c: StreamChoice, bs: seq<Bit>, i: int, a: int)
    requires ChoiceShown(c, bs, i)
    ensures CallAt(c.calls, a) == CallOf(bs, i, a)
  {
    if a !in c.calls { NothingSent(bs, i, a); }
  }

  /** Bits about another choice say nothing about this one. */
  lemma OtherChoice(c: StreamChoice, bs: seq<Bit>, b: Bit, i: int)
    requires ChoiceShown(c, bs, i) && b.choice != i
    ensures ChoiceShown(c, bs + [b], i)
  {
    assert (bs + [b])[..|bs|] == bs;
    forall a ensures CallOf(bs + [b], i, a) == CallOf(bs, i, a) { SameCall(bs, b, i, a); }
  }

  lemma SameCall(bs: seq<Bit>, b: Bit, i: int, a: int)
    requires !About(b, i, a)
    ensures CallOf(bs + [b], i, a) == CallOf(bs, i, a)
  {
    assert (bs + [b])[..|bs|] == bs;
    assert IdSent(bs, i, a) + "" == IdSent(bs, i, a) && NameSent(bs, i, a) + "" == NameSent(bs, i, a);
    assert ArgumentsSent(bs, i, a) + "" == ArgumentsSent(bs, i, a);
  }

  // ---- One bit --------------------------------------------------------------------------------

  lemma AskFits(req: Requirements, w: Work, bs: seq<Bit>, i: int, d: CallDelta)
    requires WorkShown(w, bs, i)
    ensures DeltaStep(req, w, d).Advance? <==> MayAsk(req, bs, i, d)
  {
    hide IdSent, NameSent, KindSent, ArgumentsSent, HasArguments, Slots, CallTotal, Charged, IsOld, IsOver, HasPayload;
    if d.index.Some? { CallBefore(w.choice, bs, i, d.index.value); }
    assert |w.choice.calls| == |w.choice.calls.Keys|;
  }

  /** The call a bit adds to, afterwards. */
  function Added(bs: seq<Bit>, b: Bit, i: int, a: int): StreamCall {
    CallOf(bs + [b], i, a)
  }

  lemma AskedCall(bs: seq<Bit>, i: int, d: CallDelta)
    requires d.index.Some? && !d.arguments.NotText?
    ensures var c := ChatStream.Identified(CallOf(bs, i, d.index.value), d);
      Added(bs, Asked(i, d), i, d.index.value) == if d.arguments.Piece? then Appended(c, d.arguments.text) else c
  {
    var a, b := d.index.value, Asked(i, d);
    assert (bs + [b])[..|bs|] == bs;
    assert ArgumentsSent(bs, i, a) + "" == ArgumentsSent(bs, i, a);
    NoArguments(bs, i, a);
  }

  lemma {:induction false} NoArguments(bs: seq<Bit>, i: int, a: int)
    ensures !HasArguments(bs, i, a) ==> ArgumentsSent(bs, i, a) == ""
  {
    if |bs| > 0 { NoArguments(bs[..|bs| - 1], i, a); }
  }

  lemma SlotsMore(bs: seq<Bit>, b: Bit, i: int)
    requires b.choice == i
    ensures Slots(bs + [b], i) == Slots(bs, i) + (if Slot(b).Some? then {Slot(b).value} else {})
    ensures CallTotal(bs + [b]) == CallTotal(bs) + (if Slot(b).Some? && Slot(b).value !in Slots(bs, i) then 1 else 0)
    ensures Charged(bs + [b]) == Charged(bs) + (if PieceOf(b).Piece? then |PieceOf(b).text| else 0)
    ensures HasPayload(bs + [b], i) == (HasPayload(bs, i) || b == Said(i, true)) && IsOver(bs + [b], i) == (IsOver(bs, i) || b.Over?)
    ensures IsOld(bs + [b], i) == (IsOld(bs, i) || b.AskedOld?)
  {
    assert (bs + [b])[..|bs|] == bs;
  }

  /** The work after a bit that adds to one call. */
  lemma KeptShows(w: Work, bs: seq<Bit>, b: Bit, i: int, a: int, legacy: bool, more: nat)
    requires WorkShown(w, bs, i) && b.choice == i && Slot(b) == Some(a) && legacy == (w.choice.legacy || b.AskedOld?)
    requires more == if PieceOf(b).Piece? then |PieceOf(b).text| else 0
    ensures WorkShown(Kept(w.(choice := w.choice.(legacy := legacy)), a, Added(bs, b, i, a), more), bs + [b], i)
  {
    hide CallOf, Slots, CallTotal, Charged, IsOld, IsOver, HasPayload, PieceOf;
    SlotsMore(bs, b, i);
    forall x | x != a ensures CallOf(bs + [b], i, x) == CallOf(bs, i, x) { SameCall(bs, b, i, x); }
  }

  lemma AskShows(req: Requirements, w: Work, bs: seq<Bit>, i: int, d: CallDelta)
    requires WorkShown(w, bs, i) && DeltaStep(req, w, d).Advance?
    ensures WorkShown(DeltaStep(req, w, d).next, bs + [Asked(i, d)], i)
  {
    hide WorkShown, Added, CallOf, MayAppend, Appended, Kept, ChatStream.Identified, ChatStream.IdentityFits;
    var b := Asked(i, d);
    var a := d.index.value;
    ShownCall(w, bs, i, a);
    AskedCall(bs, i, d);
    KeptShows(w, bs, b, i, a, w.choice.legacy, if d.arguments.Piece? then |d.arguments.text| else 0);
    assert w.(choice := w.choice.(legacy := w.choice.legacy)) == w;
  }

  lemma ShownCall(w: Work, bs: seq<Bit>, i: int, a: int)
    requires WorkShown(w, bs, i)
    ensures CallAt(w.choice.calls, a) == CallOf(bs, i, a)
  {
    CallBefore(w.choice, bs, i, a);
  }

  lemma AskOldFits(w: Work, bs: seq<Bit>, i: int, d: LegacyDelta)
    requires WorkShown(w, bs, i)
    ensures LegacyStep(w, d).Advance? <==> MayAskOld(bs, i, d)
  {
    hide IdSent, NameSent, KindSent, ArgumentsSent, HasArguments, Slots, CallTotal, Charged, IsOld, IsOver, HasPayload;
    CallBefore(w.choice, bs, i, LEGACY_SLOT);
    assert |w.choice.calls| == |w.choice.calls.Keys|;
  }

  lemma AskedOldCall(bs: seq<Bit>, i: int, d: LegacyDelta)
    requires !d.arguments.NotText?
    ensures var before := CallOf(bs, i, LEGACY_SLOT);
      var c := before.(kind := "legacy", name := before.name + d.name);
      Added(bs, AskedOld(i, d), i, LEGACY_SLOT) == if d.arguments.Piece? then Appended(c, d.arguments.text) else c
  {
    var b := AskedOld(i, d);
    assert (bs + [b])[..|bs|] == bs;
    assert ArgumentsSent(bs, i, LEGACY_SLOT) + "" == ArgumentsSent(bs, i, LEGACY_SLOT) && IdSent(bs, i, LEGACY_SLOT) + "" == IdSent(bs, i, LEGACY_SLOT);
    NoArguments(bs, i, LEGACY_SLOT);
  }

  lemma AskOldShows(w: Work, bs: seq<Bit>, i: int, d: LegacyDelta)
    requires WorkShown(w, bs, i) && LegacyStep(w, d).Advance?
    ensures WorkShown(LegacyStep(w, d).next, bs + [AskedOld(i, d)], i)
  {
    hide WorkShown, Added, CallOf, MayAppend, Appended, Kept, ChatStream.IdentityFits;
    ShownCall(w, bs, i, LEGACY_SLOT);
    AskedOldCall(bs, i, d);
    KeptShows(w, bs, AskedOld(i, d), i, LEGACY_SLOT, true, if d.arguments.Piece? then |d.arguments.text| else 0);
  }

  lemma OverFits(req: Requirements, w: Work, bs: seq<Bit>, i: int, reason: string)
    requires WorkShown(w, bs, i)
    ensures MayFinish(req, w.choice, TakenIds(bs), reason) <==> MayBeOver(req, bs, i, reason)
  {
    hide IdSent, NameSent, KindSent, ArgumentsSent, HasArguments, Slots, CallTotal, Charged, IsOld, IsOver, HasPayload, TakenIds, ToolReason, ValidArguments;
    var calls := w.choice.calls;
    assert |calls| == |calls.Keys|;
    forall a | a in calls ensures CallFinishes(req, calls[a], TakenIds(bs)) <==> SlotWhole(req, bs, i, a) {}
    if MayFinish(req, w.choice, TakenIds(bs), reason) {
      forall a, b | ModernSlot(bs, i, a) && ModernSlot(bs, i, b) && a != b ensures IdSent(bs, i, a) != IdSent(bs, i, b) {
        assert a in calls && b in calls;
      }
    }
    if MayBeOver(req, bs, i, reason) {
      forall a, b | a in calls && b in calls && a != b && calls[a].kind != "legacy" && calls[b].kind != "legacy" ensures calls[a].id != calls[b].id {
        assert ModernSlot(bs, i, a) && ModernSlot(bs, i, b);
      }
    }
  }

  lemma IdsShown(w: Work, bs: seq<Bit>, i: int)
    requires WorkShown(w, bs, i)
    ensures ModernIds(w.choice.calls) == IdsOf(bs, i)
  {
    hide IdSent, NameSent, KindSent, ArgumentsSent, HasArguments, Slots, CallTotal, Charged, IsOld, IsOver, HasPayload;
    var calls := w.choice.calls;
    assert forall a :: a in calls ==> calls[a].kind == KindSent(bs, i, a) && calls[a].id == IdSent(bs, i, a);
  }

  lemma OverShows(w: Work, bs: seq<Bit>, i: int, reason: string)
    requires WorkShown(w, bs, i)
    ensures WorkShown(w.(choice := w.choice.(finished := true)), bs + [Over(i, reason)], i)
  {
    hide CallOf, Slots, CallTotal, Charged, IsOld, IsOver, HasPayload;
    var b := Over(i, reason);
    SlotsMore(bs, b, i);
    forall x ensures CallOf(bs + [b], i, x) == CallOf(bs, i, x) { SameCall(bs, b, i, x); }
  }

  lemma SaidShows(t: Tools, bs: seq<Bit>, d: ChatChoice)
    requires AllShown(t, bs)
    ensures var i := IndexOf(d);
      WorkShown(Work(Payload(ChoiceAt(t, i), d), t.callCount, t.argumentBytes), bs + [Said(i, d.content.Piece? || d.refusal.Piece?)], i)
      && ChoiceAt(t, i).finished == IsOver(bs, i)
  {
    hide CallOf, Slots, CallTotal, Charged, IsOld, IsOver, HasPayload, IndexOf;
    var i := IndexOf(d);
    var b := Said(i, d.content.Piece? || d.refusal.Piece?);
    assert ChoiceShown(ChoiceAt(t, i), bs, i);
    SlotsMore(bs, b, i);
    forall x ensures CallOf(bs + [b], i, x) == CallOf(bs, i, x) { SameCall(bs, b, i, x); }
  }

  // ---- One choice of a chunk --------------------------------------------------------------------

  /** More bits, each of which fits what came before it. */
  ghost predicate FitAfter(req: Requirements, past: seq<Bit>, more: seq<Bit>)
    decreases |more|
  {
    |more| == 0 || (FitAfter(req, past, more[..|more| - 1]) && Fits(req, past + more[..|more| - 1], more[|more| - 1]))
  }

  lemma FitOneMore(req: Requirements, past: seq<Bit>, more: seq<Bit>, b: Bit)
    ensures FitAfter(req, past, more + [b]) <==> FitAfter(req, past, more) && Fits(req, past + more, b)
  {
    hide Fits;
    assert (more + [b])[..|more|] == more;
  }

  lemma {:induction false} AllFitAfter(req: Requirements, past: seq<Bit>, more: seq<Bit>)
    ensures AllFit(req, past + more) <==> AllFit(req, past) && FitAfter(req, past, more)
    decreases |more|
  {
    hide Fits;
    if |more| == 0 {
      assert past + more == past;
    } else {
      var front, b := more[..|more| - 1], more[|more| - 1];
      AllFitAfter(req, past, front);
      assert (past + more)[..|past + more| - 1] == past + front;
      Machines.AllFitMore((p, x) => Fits(req, p, x), past + more);
    }
  }

  lemma FitAll(req: Requirements, past: seq<Bit>, a: seq<Bit>, b: seq<Bit>)
    ensures FitAfter(req, past, a + b) <==> FitAfter(req, past, a) && FitAfter(req, past + a, b)
    decreases |b|
  {
    hide Fits;
    if |b| == 0 {
      assert a + b == a;
    } else {
      var front, x := b[..|b| - 1], b[|b| - 1];
      FitAll(req, past, a, front);
      assert a + b == a + front + [x] && past + a + front == past + (a + front);
      FitOneMore(req, past, a + front, x);
    }
  }

  /** The deltas of a chunk, one by one. */
  lemma {:induction false} AsksFit(req: Requirements, w: Work, past: seq<Bit>, i: int, calls: seq<CallDelta>)
    requires WorkShown(w, past, i)
    ensures var r := Machines.Run(DeltaStepper(req), w, calls);
      (r.Advance? <==> FitAfter(req, past, Asks(i, calls))) && (r.Advance? ==> WorkShown(r.next, past + Asks(i, calls), i))
    decreases |calls|
  {
    hide WorkShown, MayAsk, DeltaStep;
    if |calls| == 0 {
      assert past + [] == past;
    } else {
      var front, d := calls[..|calls| - 1], calls[|calls| - 1];
      AsksFit(req, w, past, i, front);
      FitOneMore(req, past, Asks(i, front), Asked(i, d));
      assert past + Asks(i, calls) == past + Asks(i, front) + [Asked(i, d)];
      var r := Machines.Run(DeltaStepper(req), w, front);
      if r.Advance? {
        AskFits(req, r.next, past + Asks(i, front), i, d);
        if DeltaStep(req, r.next, d).Advance? { AskShows(req, r.next, past + Asks(i, front), i, d); }
      }
    }
  }

  lemma AssembleFits(req: Requirements, t: Tools, past: seq<Bit>, d: ChatChoice)
    requires AllShown(t, past)
    ensures var r := Assemble(req, t, d);
      (r.Advance? <==> Good(req, d) && FitAfter(req, past, Body(d))) && (r.Advance? ==> WorkShown(r.next, past + Body(d), IndexOf(d)))
  {
    hide AllShown, WorkShown, MayAsk, MayAskOld, DeltaStep, LegacyStep, IndexGood, IndexOf, Payload, Asks, AllFit, IsOver;
    var i := IndexOf(d);
    var said := [Said(i, d.content.Piece? || d.refusal.Piece?)];
    SaidShows(t, past, d);
    FitSaid(req, past, said[0]);
    var w := Work(Payload(ChoiceAt(t, i), d), t.callCount, t.argumentBytes);
    AsksFit(req, w, past + said, i, d.calls);
    FitAll(req, past, said, Asks(i, d.calls));
    assert past + said + Asks(i, d.calls) == past + (said + Asks(i, d.calls));
    if d.legacy.Some? {
      FitOneMore(req, past, said + Asks(i, d.calls), AskedOld(i, d.legacy.value));
      var r := Machines.Run(DeltaStepper(req), w, d.calls);
      if r.Advance? {
        AskOldFits(r.next, past + (said + Asks(i, d.calls)), i, d.legacy.value);
        if LegacyStep(r.next, d.legacy.value).Advance? { AskOldShows(r.next, past + (said + Asks(i, d.calls)), i, d.legacy.value); }
      }
      assert past + Body(d) == past + (said + Asks(i, d.calls)) + [AskedOld(i, d.legacy.value)];
    } else {
      assert Body(d) == said + Asks(i, d.calls);
    }
  }

  lemma FitSaid(req: Requirements, past: seq<Bit>, b: Bit)
    requires b.Said?
    ensures FitAfter(req, past, [b]) <==> !IsOver(past, b.choice)
  {
    assert [b][..0] == [] && past + [] == past;
  }

  predicate Only(bs: seq<Bit>, i: int) {
    forall b :: b in bs ==> b.choice == i && !b.Over?
  }

  lemma {:induction false} AsksOnly(i: int, calls: seq<CallDelta>)
    ensures Only(Asks(i, calls), i)
  {
    if |calls| > 0 { AsksOnly(i, calls[..|calls| - 1]); }
  }

  lemma BodyOnly(d: ChatChoice)
    ensures Only(Body(d), IndexOf(d))
  {
    AsksOnly(IndexOf(d), d.calls);
    hide IndexOf;
  }

  /** Such bits leave the other choices and the identities taken alone. */
  lemma {:induction false} OthersStay(t: Tools, past: seq<Bit>, more: seq<Bit>, i: int)
    requires OthersShown(t, past, i) && Only(more, i)
    ensures OthersShown(t, past + more, i)
    decreases |more|
  {
    hide ChoiceShown;
    if |more| == 0 {
      assert past + more == past;
    } else {
      var front, b := more[..|more| - 1], more[|more| - 1];
      assert b in more && forall x :: x in front ==> x in more;
      OthersStay(t, past, front, i);
      assert past + more == past + front + [b] && (past + front + [b])[..|past + front|] == past + front;
      forall j | j != i ensures ChoiceShown(ChoiceAt(t, j), past + more, j) { OtherChoice(ChoiceAt(t, j), past + front, b, j); }
    }
  }

  /** The state with the work on one choice put back. */
  function PutBack(t: Tools, w: Work, i: int): Tools {
    t.(choices := t.choices[i := w.choice], callCount := w.callCount, argumentBytes := w.argumentBytes)
  }

  lemma PutBackShows(t: Tools, w: Work, bs: seq<Bit>, i: int)
    requires OthersShown(t, bs, i) && WorkShown(w, bs, i)
    ensures AllShown(PutBack(t, w, i), bs)
  {
    hide ChoiceShown, TakenIds, CallTotal, Charged;
    var u := PutBack(t, w, i);
    forall j ensures ChoiceShown(ChoiceAt(u, j), bs, j) {
      if j != i { assert ChoiceAt(u, j) == ChoiceAt(t, j) && ChoiceShown(ChoiceAt(t, j), bs, j); }
    }
  }

  lemma TakenMore(bs: seq<Bit>, i: int, reason: string)
    ensures TakenIds(bs + [Over(i, reason)]) == TakenIds(bs) + IdsOf(bs, i)
  {
    hide IdsOf;
    assert (bs + [Over(i, reason)])[..|bs|] == bs;
  }

  lemma OverElsewhere(t: Tools, bs: seq<Bit>, i: int, reason: string)
    requires OthersShown(t, bs, i)
    ensures OthersShown(t.(ids := t.ids + IdsOf(bs, i)), bs + [Over(i, reason)], i)
  {
    hide ChoiceShown, IdsOf, TakenIds;
    var u := t.(ids := t.ids + IdsOf(bs, i));
    TakenMore(bs, i, reason);
    forall j | j != i ensures ChoiceShown(ChoiceAt(u, j), bs + [Over(i, reason)], j) {
      assert ChoiceAt(u, j) == ChoiceAt(t, j);
      OtherChoice(ChoiceAt(t, j), bs, Over(i, reason), j);
    }
  }

  lemma StepFits(req: Requirements, t: Tools, past: seq<Bit>, d: ChatChoice)
    requires AllShown(t, past)
    ensures var r := ChoiceStep(req, t, d);
      (r.Advance? <==> Good(req, d) && FitAfter(req, past, BitsOf(d))) && (r.Advance? ==> AllShown(r.next, past + BitsOf(d)))
  {
    hide AllShown, WorkShown, OthersShown, Assemble, Body, MayFinish, MayBeOver, IndexOf, Good, TakenIds, IdsOf, ModernIds;
    var i, r := IndexOf(d), Assemble(req, t, d);
    AssembleFits(req, t, past, d);
    BodyOnly(d);
    AllOthers(t, past, i);
    OthersStay(t, past, Body(d), i);
    var bs := past + Body(d);
    TakenKnown(t, bs, i);
    if !Ends(d) {
      assert BitsOf(d) == Body(d);
      if r.Advance? { PutBackShows(t, r.next, bs, i); }
    } else {
      var reason := d.finish.value;
      FitOneMore(req, past, Body(d), Over(i, reason));
      assert bs + [Over(i, reason)] == past + BitsOf(d);
      if r.Advance? {
        OverFits(req, r.next, bs, i, reason);
        IdsShown(r.next, bs, i);
        OverShows(r.next, bs, i, reason);
        OverElsewhere(t, bs, i, reason);
        PutBackShows(t.(ids := t.ids + IdsOf(bs, i)), r.next.(choice := r.next.choice.(finished := true)), bs + [Over(i, reason)], i);
      }
    }
  }

  lemma AllOthers(t: Tools, bs: seq<Bit>, i: int)
    requires AllShown(t, bs)
    ensures OthersShown(t, bs, i)
  {
  }

  lemma TakenKnown(t: Tools, bs: seq<Bit>, i: int)
    requires OthersShown(t, bs, i)
    ensures t.ids == TakenIds(bs)
  {
  }

  // ---- All chunks ---------------------------------------------------------------------------------

  lemma AllGoodMore(req: Requirements, ds: seq<ChatChoice>)
    requires |ds| > 0
    ensures AllGood(req, ds) <==> AllGood(req, ds[..|ds| - 1]) && Good(req, ds[|ds| - 1])
  {
    hide Good;
    var front := ds[..|ds| - 1];
    assert forall k :: 0 <= k < |front| ==> front[k] == ds[k];
  }

  /** The tool contract takes exactly the choices that are good and whose bits fit. */
  lemma {:induction false} TakesExactlyWhatFits(req: Requirements, ds: seq<ChatChoice>)
    ensures Choices(req, NO_TOOLS, ds).Advance? <==> AllGood(req, ds) && AllFit(req, Bits(ds))
    ensures Choices(req, NO_TOOLS, ds).Advance? ==> AllShown(Choices(req, NO_TOOLS, ds).next, Bits(ds))
  {
    if |ds| == 0 {
      NothingShown();
    } else {
      hide ChoiceStep, BitsOf, AllShown, AllFit, Good, AllGood;
      var front, d := ds[..|ds| - 1], ds[|ds| - 1];
      TakesExactlyWhatFits(req, front);
      AllGoodMore(req, ds);
      AllFitAfter(req, Bits(front), BitsOf(d));
      if Choices(req, NO_TOOLS, front).Advance? { StepFits(req, Choices(req, NO_TOOLS, front).next, Bits(front), d); }
    }
  }

  lemma NothingShown()
    ensures AllShown(NO_TOOLS, [])
  {
  }

  // ---- The end ---------------------------------------------------------------------------------------

  /** [DONE] is taken exactly when every story is complete. */
  lemma EndsExactly(req: Requirements, ds: seq<ChatChoice>)
    requires Choices(req, NO_TOOLS, ds).Advance?
    ensures EnterAll(NO_LEDGER, ds).Advance?
    ensures MayEnd(req, Choices(req, NO_TOOLS, ds).next, EnterAll(NO_LEDGER, ds).next) <==> StoriesComplete(req, ds)
  {
    LedgersAgree(req, ds);
    hide Choices, EnterAll, IndexesOf, EndedIn, EndsAreFinal;
    var t, l := Choices(req, NO_TOOLS, ds).next, EnterAll(NO_LEDGER, ds).next;
    if MayEnd(req, t, l) { EndedStream(req, ds); }
    if StoriesComplete(req, ds) {
      assert |t.choices| == |t.choices.Keys|;
    }
  }
}
