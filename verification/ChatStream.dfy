/**
  The Chat stream: every choice is assembled from deltas and finished at most once, and two
  ledgers, kept for different purposes, always tell the same story.
 */
module ChatStream {
  import opened GoText
  import opened CompletionContract
  import opened StreamEvents
  import opened Ranges
  import JsonGrammar
  import JsonReading
  import JsonScanner
  import Machines

  type Stepped = Machines.Outcome<Tools, ()>

  // ---- One tool delta ---------------------------------------------------------------------

  /** A choice being updated, with the counters that all choices share. */
  datatype Work = Work(choice: StreamChoice, callCount: nat, argumentBytes: nat)

  type Worked = Machines.Outcome<Work, ()>

  predicate DeltaAllowed(req: Requirements, w: Work, d: CallDelta) {
    !w.choice.legacy && d.index.Some?
    && !(req.maxToolCalls > 0 && |w.choice.calls| >= req.maxToolCalls && d.index.value !in w.choice.calls)
    && CallAllowed(w.choice.calls, d.index.value, w.callCount) && req.toolMode != NoTools
  }

  predicate IdentityFits(current: string, part: string) {
    |current| + |part| <= MAX_IDENTITY
  }

  function Identified(call: StreamCall, d: CallDelta): StreamCall {
    call.(id := call.id + d.id, name := call.name + d.name, kind := if d.kind != "" then d.kind else call.kind)
  }

  function DeltaStep(req: Requirements, w: Work, d: CallDelta): Worked {
    if !DeltaAllowed(req, w, d) then Machines.Reject
    else
      var index := d.index.value;
      var before := CallAt(w.choice.calls, index);
      if !IdentityFits(before.id, d.id) || !IdentityFits(before.name, d.name)
         || (d.kind != "" && before.kind != "" && before.kind != d.kind) || d.arguments.NotText? then Machines.Reject
      else
        var call := Identified(before, d);
        if d.arguments.Missing? then Machines.Advance(Kept(w, index, call, 0), [])
        else if !MayAppend(call, w.argumentBytes, d.arguments.text) then Machines.Reject
        else Machines.Advance(Kept(w, index, Appended(call, d.arguments.text), |d.arguments.text|), [])
  }

  function Kept(w: Work, index: int, call: StreamCall, more: nat): Work {
    Work(w.choice.(calls := w.choice.calls[index := call]), CallsAfter(w.choice.calls, index, w.callCount), w.argumentBytes + more)
  }

  function DeltaStepper(req: Requirements): (Work, CallDelta) -> Worked {
    (w, d) => DeltaStep(req, w, d)
  }

  /** Slot 127 holds the only call of a legacy choice. */
  const LEGACY_SLOT := 127

  function LegacyStep(w: Work, d: LegacyDelta): Worked {
    if (!w.choice.legacy && |w.choice.calls| > 0) || !CallAllowed(w.choice.calls, LEGACY_SLOT, w.callCount) then Machines.Reject
    else
      var before := CallAt(w.choice.calls, LEGACY_SLOT);
      if !IdentityFits(before.name, d.name) || d.arguments.NotText? then Machines.Reject
      else
        var call := before.(kind := "legacy", name := before.name + d.name);
        var marked := w.(choice := w.choice.(legacy := true));
        if d.arguments.Missing? then Machines.Advance(Kept(marked, LEGACY_SLOT, call, 0), [])
        else if !MayAppend(call, w.argumentBytes, d.arguments.text) then Machines.Reject
        else Machines.Advance(Kept(marked, LEGACY_SLOT, Appended(call, d.arguments.text), |d.arguments.text|), [])
  }

  // ---- The end of a choice ------------------------------------------------------------------

  function ModernIds(calls: map<int, StreamCall>): set<string> {
    set i | i in calls && calls[i].kind != "legacy" :: calls[i].id
  }

  /** Every call is whole, and no identity occurs twice in the stream. */
  ghost predicate CallsFinish(req: Requirements, calls: map<int, StreamCall>, ids: set<string>) {
    (forall i :: i in calls ==> CallFinishes(req, calls[i], ids))
    && (forall i, j :: i in calls && j in calls && i != j && calls[i].kind != "legacy" && calls[j].kind != "legacy" ==> calls[i].id != calls[j].id)
  }

  predicate CallFinishes(req: Requirements, call: StreamCall, ids: set<string>) {
    if call.kind == "legacy" then ValidCall(req, call, true)
    else call.kind == "function" && call.id !in ids && ValidCall(req, call, false)
  }

  predicate ToolReason(reason: string) {
    reason == "tool_calls" || reason == "function_call"
  }

  ghost predicate MayFinish(req: Requirements, c: StreamChoice, ids: set<string>, reason: string) {
    if |c.calls| == 0 then req.toolMode != RequiredTools && !ToolReason(reason) && (req.expectedChoices > 0 ==> c.payload)
    else ToolReason(reason) && CallsFinish(req, c.calls, ids)
  }

  // ---- One choice of a chunk -------------------------------------------------------------------

  predicate Ends(c: ChatChoice) {
    c.finish.Some? && c.finish.value != ""
  }

  /** The index of a choice; one that leaves it out means 0. */
  function IndexOf(c: ChatChoice): int {
    if c.index.Index? then c.index.n else 0
  }

  predicate IndexGood(req: Requirements, c: ChatChoice) {
    !c.index.NullIndex? && !c.index.BadIndex? && (c.index.NoIndex? ==> req.expectedChoices <= 1)
    && 0 <= IndexOf(c) < MAX_CHOICES && (req.expectedChoices > 0 ==> IndexOf(c) < req.expectedChoices)
  }

  function ChoiceAt(t: Tools, index: int): StreamChoice {
    if index in t.choices then t.choices[index] else NO_CHOICE
  }

  function Payload(c: StreamChoice, d: ChatChoice): StreamChoice {
    c.(payload := c.payload || d.content.Piece? || d.refusal.Piece?)
  }

  /** The text and the calls of a chunk, before it may finish the choice. */
  function Assemble(req: Requirements, t: Tools, d: ChatChoice): Worked {
    var current := ChoiceAt(t, IndexOf(d));
    if !IndexGood(req, d) || current.finished || d.content.NotText? || d.refusal.NotText? then Machines.Reject
    else
      match Machines.Run(DeltaStepper(req), Work(Payload(current, d), t.callCount, t.argumentBytes), d.calls)
      case Reject => Machines.Reject
      case Advance(w, _) => if d.legacy.None? then Machines.Advance(w, []) else LegacyStep(w, d.legacy.value)
  }

  ghost function ChoiceStep(req: Requirements, t: Tools, d: ChatChoice): Stepped {
    match Assemble(req, t, d)
    case Reject => Machines.Reject
    case Advance(w, _) =>
      var kept := t.(callCount := w.callCount, argumentBytes := w.argumentBytes);
      if !Ends(d) then Machines.Advance(kept.(choices := t.choices[IndexOf(d) := w.choice]), [])
      else if !MayFinish(req, w.choice, t.ids, d.finish.value) then Machines.Reject
      else Machines.Advance(kept.(choices := t.choices[IndexOf(d) := w.choice.(finished := true)],
                                  ids := t.ids + ModernIds(w.choice.calls)), [])
  }

  ghost function ChoiceStepper(req: Requirements): (Tools, ChatChoice) -> Stepped {
    (t, d) => ChoiceStep(req, t, d)
  }

  ghost function Choices(req: Requirements, t: Tools, ds: seq<ChatChoice>): Stepped {
    Machines.Run(ChoiceStepper(req), t, ds)
  }

  // ---- The other ledger -------------------------------------------------------------------------

  datatype Ledger = Ledger(seen: set<int>, choices: nat, finished: set<int>, finishedChoices: nat)

  const NO_LEDGER := Ledger({}, 0, {}, 0)

  type Entered = Machines.Outcome<Ledger, ()>

  function Enter(l: Ledger, d: ChatChoice): Entered {
    var n := IndexOf(d);
    if n < 0 || n >= MAX_CHOICES then Machines.Reject
    else
      var l1 := if n in l.seen then l else l.(seen := l.seen + {n}, choices := l.choices + 1);
      Machines.Advance(if Ends(d) && n !in l1.finished then l1.(finished := l1.finished + {n}, finishedChoices := l1.finishedChoices + 1) else l1, [])
  }

  function EnterAll(l: Ledger, ds: seq<ChatChoice>): Entered {
    Machines.Run(Enter, l, ds)
  }

  // ---- What a stretch of chunks says ---------------------------------------------------------------

  function IndexesOf(ds: seq<ChatChoice>): set<int> {
    set k | 0 <= k < |ds| :: IndexOf(ds[k])
  }

  function EndedIn(ds: seq<ChatChoice>): set<int> {
    set k | 0 <= k < |ds| && Ends(ds[k]) :: IndexOf(ds[k])
  }

  /** Once a choice has ended, nothing more is said about it. */
  predicate EndsAreFinal(ds: seq<ChatChoice>) {
    forall p, q :: 0 <= p < q < |ds| && Ends(ds[p]) ==> IndexOf(ds[q]) != IndexOf(ds[p])
  }

  predicate IndexesGood(req: Requirements, ds: seq<ChatChoice>) {
    forall k :: 0 <= k < |ds| ==> IndexGood(req, ds[k])
  }

  lemma SetsGrow(ds: seq<ChatChoice>)
    requires |ds| > 0
    ensures var front, d := ds[..|ds| - 1], ds[|ds| - 1];
      IndexesOf(ds) == IndexesOf(front) + {IndexOf(d)}
      && EndedIn(ds) == EndedIn(front) + (if Ends(d) then {IndexOf(d)} else {})
  {
    var front, d := ds[..|ds| - 1], ds[|ds| - 1];
    hide IndexOf, Ends;
    forall x ensures x in IndexesOf(ds) <==> x in IndexesOf(front) + {IndexOf(d)} {
      if x in IndexesOf(ds) {
        var k :| 0 <= k < |ds| && IndexOf(ds[k]) == x;
        if k < |front| { assert front[k] == ds[k]; }
      }
      if x in IndexesOf(front) {
        var k :| 0 <= k < |front| && IndexOf(front[k]) == x;
        assert front[k] == ds[k];
      }
      assert d == ds[|ds| - 1];
    }
    forall x ensures x in EndedIn(ds) <==> x in EndedIn(front) + (if Ends(d) then {IndexOf(d)} else {}) {
      if x in EndedIn(ds) {
        var k :| 0 <= k < |ds| && Ends(ds[k]) && IndexOf(ds[k]) == x;
        if k < |front| { assert front[k] == ds[k]; }
      }
      if x in EndedIn(front) {
        var k :| 0 <= k < |front| && Ends(front[k]) && IndexOf(front[k]) == x;
        assert front[k] == ds[k];
      }
      assert d == ds[|ds| - 1];
    }
  }

  lemma FinalGrows(ds: seq<ChatChoice>)
    requires |ds| > 0 && EndsAreFinal(ds[..|ds| - 1]) && IndexOf(ds[|ds| - 1]) !in EndedIn(ds[..|ds| - 1])
    ensures EndsAreFinal(ds)
  {
    hide IndexOf, Ends;
    var front := ds[..|ds| - 1];
    forall p, q | 0 <= p < q < |ds| && Ends(ds[p]) ensures IndexOf(ds[q]) != IndexOf(ds[p]) {
      assert front[p] == ds[p];
      if q < |front| { assert front[q] == ds[q]; } else { assert IndexOf(front[p]) in EndedIn(front); }
    }
  }

  /** The tool ledger agrees with what was said. */
  predicate ToolsAgree(t: Tools, ds: seq<ChatChoice>) {
    t.choices.Keys == IndexesOf(ds) && forall i :: i in t.choices ==> (t.choices[i].finished <==> i in EndedIn(ds))
  }

  /** So does the choice ledger, and its counters count its sets. */
  predicate LedgerAgrees(l: Ledger, ds: seq<ChatChoice>) {
    l.seen == IndexesOf(ds) && l.finished == EndedIn(ds) && l.choices == |l.seen| && l.finishedChoices == |l.finished|
  }

  lemma {:induction false} DeltasKeepFinished(req: Requirements, w: Work, ds: seq<CallDelta>)
    ensures var r := Machines.Run(DeltaStepper(req), w, ds); r.Advance? ==> r.next.choice.finished == w.choice.finished
  {
    if |ds| > 0 { DeltasKeepFinished(req, w, ds[..|ds| - 1]); }
  }

  lemma AssembleKeepsFinished(req: Requirements, t: Tools, d: ChatChoice)
    requires Assemble(req, t, d).Advance?
    ensures !Assemble(req, t, d).next.choice.finished && !ChoiceAt(t, IndexOf(d)).finished && IndexGood(req, d)
  {
    DeltasKeepFinished(req, Work(Payload(ChoiceAt(t, IndexOf(d)), d), t.callCount, t.argumentBytes), d.calls);
  }

  lemma StepUpdates(req: Requirements, t: Tools, d: ChatChoice) returns (c: StreamChoice)
    requires ChoiceStep(req, t, d).Advance?
    ensures ChoiceStep(req, t, d).next.choices == t.choices[IndexOf(d) := c] && c.finished == Ends(d)
    ensures !ChoiceAt(t, IndexOf(d)).finished && IndexGood(req, d)
  {
    AssembleKeepsFinished(req, t, d);
    hide Assemble, IndexOf, Ends, MayFinish, IndexGood;
    c := Assemble(req, t, d).next.choice;
    if Ends(d) { c := c.(finished := true); }
  }

  lemma UpdateAgrees(t: Tools, t1: Tools, c: StreamChoice, ds: seq<ChatChoice>)
    requires |ds| > 0 && ToolsAgree(t, ds[..|ds| - 1]) && !ChoiceAt(t, IndexOf(ds[|ds| - 1])).finished
    requires t1.choices == t.choices[IndexOf(ds[|ds| - 1]) := c] && c.finished == Ends(ds[|ds| - 1])
    ensures ToolsAgree(t1, ds) && IndexOf(ds[|ds| - 1]) !in EndedIn(ds[..|ds| - 1])
  {
    var front, n := ds[..|ds| - 1], IndexOf(ds[|ds| - 1]);
    SetsGrow(ds);
    EndedWereSeen(front);
    hide IndexOf, Ends, IndexesOf, EndedIn;
    assert n !in EndedIn(front);
    assert t1.choices.Keys == IndexesOf(ds);
    forall i | i in t1.choices ensures t1.choices[i].finished <==> i in EndedIn(ds) {
      if i != n { assert t1.choices[i] == t.choices[i]; }
    }
  }

  lemma EndedWereSeen(ds: seq<ChatChoice>)
    ensures EndedIn(ds) <= IndexesOf(ds)
  {
    hide IndexOf, Ends;
  }

  lemma ToolsStepAgrees(req: Requirements, t: Tools, ds: seq<ChatChoice>)
    requires |ds| > 0 && ToolsAgree(t, ds[..|ds| - 1]) && EndsAreFinal(ds[..|ds| - 1]) && IndexesGood(req, ds[..|ds| - 1])
    requires ChoiceStep(req, t, ds[|ds| - 1]).Advance?
    ensures ToolsAgree(ChoiceStep(req, t, ds[|ds| - 1]).next, ds) && EndsAreFinal(ds) && IndexesGood(req, ds)
  {
    hide ChoiceStep, IndexOf, Ends, IndexesOf, EndedIn, IndexGood, ToolsAgree;
    var front, d := ds[..|ds| - 1], ds[|ds| - 1];
    var c := StepUpdates(req, t, d);
    UpdateAgrees(t, ChoiceStep(req, t, d).next, c, ds);
    FinalGrows(ds);
    forall k | 0 <= k < |ds| ensures IndexGood(req, ds[k]) { if k < |front| { assert front[k] == ds[k]; } }
  }

  lemma EnterAgrees(l: Ledger, ds: seq<ChatChoice>)
    requires |ds| > 0 && LedgerAgrees(l, ds[..|ds| - 1]) && Enter(l, ds[|ds| - 1]).Advance?
    ensures LedgerAgrees(Enter(l, ds[|ds| - 1]).next, ds)
  {
    SetsGrow(ds);
    var d := ds[|ds| - 1];
    EnterSets(l, d);
    hide Enter, IndexOf, Ends, IndexesOf, EndedIn;
  }

  lemma EnterSets(l: Ledger, d: ChatChoice)
    requires Enter(l, d).Advance? && l.choices == |l.seen| && l.finishedChoices == |l.finished|
    ensures var r := Enter(l, d).next;
      r.seen == l.seen + {IndexOf(d)} && r.finished == l.finished + (if Ends(d) then {IndexOf(d)} else {})
      && r.choices == |r.seen| && r.finishedChoices == |r.finished|
  {
    hide IndexOf, Ends;
    AddMember(l.seen, IndexOf(d));
    AddMember(l.finished, IndexOf(d));
    assert l.finished + {} == l.finished;
  }

  lemma AddMember(a: set<int>, n: int)
    ensures |a + {n}| == if n in a then |a| else |a| + 1
    ensures n in a ==> a + {n} == a
  {
    if n in a { assert a + {n} == a; }
  }

  /** After any stretch of chunks both ledgers agree with it, and hence with each other. */
  lemma {:induction false} LedgersAgree(req: Requirements, ds: seq<ChatChoice>)
    requires Choices(req, NO_TOOLS, ds).Advance?
    ensures ToolsAgree(Choices(req, NO_TOOLS, ds).next, ds) && EndsAreFinal(ds) && IndexesGood(req, ds)
    ensures EnterAll(NO_LEDGER, ds).Advance? && LedgerAgrees(EnterAll(NO_LEDGER, ds).next, ds)
  {
    if |ds| > 0 {
      var front, d := ds[..|ds| - 1], ds[|ds| - 1];
      hide ChoiceStep, Enter, ToolsAgree, LedgerAgrees, EndsAreFinal;
      LedgersAgree(req, front);
      ToolsStepAgrees(req, Choices(req, NO_TOOLS, front).next, ds);
      assert IndexGood(req, d);
      EnterPossible(EnterAll(NO_LEDGER, front).next, req, d);
      EnterAgrees(EnterAll(NO_LEDGER, front).next, ds);
    }
  }

  lemma EnterPossible(l: Ledger, req: Requirements, d: ChatChoice)
    requires IndexGood(req, d)
    ensures Enter(l, d).Advance?
  {
  }

  // ---- The end of the stream -------------------------------------------------------------------

  /** completeChatStream. */
  predicate AllFinished(req: Requirements, t: Tools) {
    (req.expectedChoices > 0 ==> |t.choices| == req.expectedChoices) && forall i :: i in t.choices ==> t.choices[i].finished
  }

  /** [DONE] is accepted. */
  predicate MayEnd(req: Requirements, t: Tools, l: Ledger) {
    l.choices > 0 && l.finishedChoices == l.choices && AllFinished(req, t)
  }

  /** Every choice ends, exactly once, with nothing for it afterwards; when n were asked for,
      they are the choices 0 to n-1. */
  predicate StoriesComplete(req: Requirements, ds: seq<ChatChoice>) {
    IndexesOf(ds) != {} && EndedIn(ds) == IndexesOf(ds) && EndsAreFinal(ds)
    && (req.expectedChoices > 0 ==> IndexesOf(ds) == Range(req.expectedChoices))
  }

  lemma EndedStream(req: Requirements, ds: seq<ChatChoice>)
    requires Choices(req, NO_TOOLS, ds).Advance? && EnterAll(NO_LEDGER, ds).Advance?
    requires MayEnd(req, Choices(req, NO_TOOLS, ds).next, EnterAll(NO_LEDGER, ds).next)
    ensures StoriesComplete(req, ds)
  {
    LedgersAgree(req, ds);
    EndedWereSeen(ds);
    hide Choices, EnterAll;
    var t, l := Choices(req, NO_TOOLS, ds).next, EnterAll(NO_LEDGER, ds).next;
    SubsetOfSameSize(EndedIn(ds), IndexesOf(ds));
    if req.expectedChoices > 0 {
      IndexesBelow(req, ds);
      assert |t.choices| == |t.choices.Keys|;
      Pigeonhole(IndexesOf(ds), req.expectedChoices);
    }
  }

  lemma IndexesBelow(req: Requirements, ds: seq<ChatChoice>)
    requires IndexesGood(req, ds) && req.expectedChoices > 0
    ensures forall x :: x in IndexesOf(ds) ==> 0 <= x < req.expectedChoices
  {
    forall x | x in IndexesOf(ds) ensures 0 <= x < req.expectedChoices {
      var k :| 0 <= k < |ds| && IndexOf(ds[k]) == x;
      assert IndexGood(req, ds[k]);
    }
  }

  // ---- The calls of finished choices -----------------------------------------------------------

  predicate Modern(c: StreamChoice, a: int) {
    a in c.calls && c.calls[a].kind != "legacy"
  }

  predicate FinishedChoice(t: Tools, i: int) {
    i in t.choices && t.choices[i].finished
  }

  /** Every call of a finished choice is whole and allowed. */
  ghost predicate CallsWhole(req: Requirements, t: Tools) {
    forall i, a :: FinishedChoice(t, i) && a in t.choices[i].calls ==>
      CallFinishes(req, t.choices[i].calls[a], {})
  }

  predicate CallPair(t: Tools, i: int, a: int, j: int, b: int) {
    FinishedChoice(t, i) && Modern(t.choices[i], a) && FinishedChoice(t, j) && Modern(t.choices[j], b) && (i != j || a != b)
  }

  /** No two of those that are checked as tool calls have the same identity, wherever they are
      in the stream.  A call is not checked when its type is "legacy", and that type may be
      what the upstream declared: which calls escape is said below. */
  ghost predicate IdsDistinct(t: Tools) {
    (forall i, a :: FinishedChoice(t, i) && Modern(t.choices[i], a) ==> t.choices[i].calls[a].id in t.ids)
    && forall i, a, j, b :: CallPair(t, i, a, j, b) ==> t.choices[i].calls[a].id != t.choices[j].calls[b].id
  }

  lemma FinishKeepsDistinct(req: Requirements, t: Tools, t1: Tools, n: int, c: StreamChoice)
    requires IdsDistinct(t) && CallsWhole(req, t) && !FinishedChoice(t, n)
    requires t1.choices == t.choices[n := c] && (c.finished ==> CallsFinish(req, c.calls, t.ids))
    requires t1.ids == if c.finished then t.ids + ModernIds(c.calls) else t.ids
    ensures IdsDistinct(t1) && CallsWhole(req, t1)
  {
    hide ValidCall;
    forall i | FinishedChoice(t1, i) && i != n ensures FinishedChoice(t, i) && t1.choices[i] == t.choices[i] {}
    if c.finished {
      forall a | Modern(c, a) ensures c.calls[a].id in ModernIds(c.calls) && c.calls[a].id !in t.ids {
        assert CallFinishes(req, c.calls[a], t.ids);
      }
    }
    forall i, a | FinishedChoice(t1, i) && a in t1.choices[i].calls ensures CallFinishes(req, t1.choices[i].calls[a], {}) {
      if i == n { assert CallFinishes(req, c.calls[a], t.ids); }
    }
  }

  lemma StepFinishes(req: Requirements, t: Tools, d: ChatChoice) returns (c: StreamChoice)
    requires ChoiceStep(req, t, d).Advance?
    ensures var t1 := ChoiceStep(req, t, d).next;
      t1.choices == t.choices[IndexOf(d) := c] && !FinishedChoice(t, IndexOf(d)) && (c.finished ==> CallsFinish(req, c.calls, t.ids))
      && t1.ids == if c.finished then t.ids + ModernIds(c.calls) else t.ids
  {
    AssembleKeepsFinished(req, t, d);
    hide Assemble, IndexOf, Ends, IndexGood, CallFinishes;
    c := Assemble(req, t, d).next.choice;
    if Ends(d) { c := c.(finished := true); }
  }

  lemma {:induction false} CallsAreDistinct(req: Requirements, ds: seq<ChatChoice>)
    requires Choices(req, NO_TOOLS, ds).Advance?
    ensures CallsWhole(req, Choices(req, NO_TOOLS, ds).next) && IdsDistinct(Choices(req, NO_TOOLS, ds).next)
  {
    if |ds| > 0 {
      hide ChoiceStep, CallsWhole, IdsDistinct;
      CallsAreDistinct(req, ds[..|ds| - 1]);
      var t := Choices(req, NO_TOOLS, ds[..|ds| - 1]).next;
      var c := StepFinishes(req, t, ds[|ds| - 1]);
      FinishKeepsDistinct(req, t, ChoiceStep(req, t, ds[|ds| - 1]).next, IndexOf(ds[|ds| - 1]), c);
    }
  }

  // ---- Calls that declare the type "legacy" ---------------------------------------------------------

  /** A delta of a call at index a declares the type that the gateway uses for older calls. */
  predicate DeltaDeclares(ds: seq<CallDelta>, a: int) {
    exists j :: 0 <= j < |ds| && ds[j].index == Some(a) && ds[j].kind == "legacy"
  }

  /** So does a delta of call a of choice i, somewhere in the stream. */
  predicate Declared(ds: seq<ChatChoice>, i: int, a: int) {
    exists k :: 0 <= k < |ds| && IndexOf(ds[k]) == i && DeltaDeclares(ds[k].calls, a)
  }

  /** No delta of the stream declares it. */
  predicate NoneDeclared(ds: seq<ChatChoice>) {
    forall k, j :: 0 <= k < |ds| && 0 <= j < |ds[k].calls| ==> ds[k].calls[j].kind != "legacy"
  }

  predicate TypedLegacy(c: StreamChoice, a: int) {
    a in c.calls && c.calls[a].kind == "legacy"
  }

  /** In a choice without an older call, the calls of that type are those that declared it. */
  ghost predicate TypesTell(t: Tools, ds: seq<ChatChoice>) {
    forall i, a :: if ChoiceAt(t, i).legacy then !Declared(ds, i, a) else TypedLegacy(ChoiceAt(t, i), a) <==> Declared(ds, i, a)
  }

  lemma DeltaDeclaresGrows(ds: seq<CallDelta>, a: int)
    requires |ds| > 0
    ensures var d := ds[|ds| - 1];
      DeltaDeclares(ds, a) <==> DeltaDeclares(ds[..|ds| - 1], a) || (d.index == Some(a) && d.kind == "legacy")
  {
    var front := ds[..|ds| - 1];
    if DeltaDeclares(ds, a) {
      var j :| 0 <= j < |ds| && ds[j].index == Some(a) && ds[j].kind == "legacy";
      if j < |front| { assert front[j] == ds[j]; }
    }
    if DeltaDeclares(front, a) {
      var j :| 0 <= j < |front| && front[j].index == Some(a) && front[j].kind == "legacy";
      assert ds[j] == front[j];
    }
    assert ds[|ds| - 1] == ds[|front|];
  }

  lemma DeclaredGrows(ds: seq<ChatChoice>, i: int, a: int)
    requires |ds| > 0
    ensures var d := ds[|ds| - 1];
      Declared(ds, i, a) <==> Declared(ds[..|ds| - 1], i, a) || (IndexOf(d) == i && DeltaDeclares(d.calls, a))
  {
    hide DeltaDeclares, IndexOf;
    var front := ds[..|ds| - 1];
    if Declared(ds, i, a) {
      var k :| 0 <= k < |ds| && IndexOf(ds[k]) == i && DeltaDeclares(ds[k].calls, a);
      if k < |front| { assert front[k] == ds[k]; }
    }
    if Declared(front, i, a) {
      var k :| 0 <= k < |front| && IndexOf(front[k]) == i && DeltaDeclares(front[k].calls, a);
      assert ds[k] == front[k];
    }
    assert ds[|ds| - 1] == ds[|front|];
  }

  /** A type, once given, is never changed. */
  lemma DeltaTypes(req: Requirements, w: Work, d: CallDelta, a: int)
    requires DeltaStep(req, w, d).Advance?
    ensures var r := DeltaStep(req, w, d).next.choice;
      r.legacy == w.choice.legacy && !w.choice.legacy && |r.calls| > 0
      && (TypedLegacy(r, a) <==> TypedLegacy(w.choice, a) || (d.index == Some(a) && d.kind == "legacy"))
  {
    hide CallAllowed, MayAppend, IdentityFits;
    var r := DeltaStep(req, w, d).next.choice;
    assert d.index.value in r.calls;
  }

  lemma {:induction false} DeltasTypes(req: Requirements, w: Work, ds: seq<CallDelta>, a: int)
    requires Machines.Run(DeltaStepper(req), w, ds).Advance?
    ensures var r := Machines.Run(DeltaStepper(req), w, ds).next.choice;
      r.legacy == w.choice.legacy && (|ds| > 0 ==> !r.legacy && |r.calls| > 0)
      && (TypedLegacy(r, a) <==> TypedLegacy(w.choice, a) || DeltaDeclares(ds, a))
  {
    if |ds| > 0 {
      hide DeltaStep, TypedLegacy, DeltaDeclares;
      DeltasTypes(req, w, ds[..|ds| - 1], a);
      DeltaTypes(req, Machines.Run(DeltaStepper(req), w, ds[..|ds| - 1]).next, ds[|ds| - 1], a);
      DeltaDeclaresGrows(ds, a);
    }
  }

  /** One choice of a chunk: an older call and deltas exclude each other. */
  lemma AssembleTypes(req: Requirements, t: Tools, d: ChatChoice, a: int)
    requires Assemble(req, t, d).Advance?
    ensures var before, c := ChoiceAt(t, IndexOf(d)), Assemble(req, t, d).next.choice;
      if c.legacy then !DeltaDeclares(d.calls, a) && (before.legacy || before.calls == map[])
      else !before.legacy && (TypedLegacy(c, a) <==> TypedLegacy(before, a) || DeltaDeclares(d.calls, a))
  {
    hide DeltaStepper, IndexGood, IndexOf;
    var before := ChoiceAt(t, IndexOf(d));
    var start := Work(Payload(before, d), t.callCount, t.argumentBytes);
    DeltasTypes(req, start, d.calls, a);
    assert |d.calls| == 0 ==> Machines.Run(DeltaStepper(req), start, d.calls).next == start;
    assert TypedLegacy(start.choice, a) <==> TypedLegacy(before, a);
  }

  lemma TypesTellStep(req: Requirements, t: Tools, ds: seq<ChatChoice>)
    requires |ds| > 0 && TypesTell(t, ds[..|ds| - 1]) && ChoiceStep(req, t, ds[|ds| - 1]).Advance?
    ensures TypesTell(ChoiceStep(req, t, ds[|ds| - 1]).next, ds)
  {
    hide Assemble, IndexOf, Declared, DeltaDeclares, MayFinish, Ends;
    var d := ds[|ds| - 1];
    var t1 := ChoiceStep(req, t, d).next;
    forall i, a
      ensures if ChoiceAt(t1, i).legacy then !Declared(ds, i, a) else TypedLegacy(ChoiceAt(t1, i), a) <==> Declared(ds, i, a)
    {
      DeclaredGrows(ds, i, a);
      AssembleTypes(req, t, d, a);
    }
  }

  lemma {:induction false} TypesAreTold(req: Requirements, ds: seq<ChatChoice>)
    requires Choices(req, NO_TOOLS, ds).Advance?
    ensures TypesTell(Choices(req, NO_TOOLS, ds).next, ds)
  {
    if |ds| > 0 {
      hide ChoiceStep, TypesTell;
      TypesAreTold(req, ds[..|ds| - 1]);
      TypesTellStep(req, Choices(req, NO_TOOLS, ds[..|ds| - 1]).next, ds);
    }
  }

  /** A call of a finished choice that does not use the older `function_call` member. */
  predicate ToolCall(t: Tools, i: int, a: int) {
    FinishedChoice(t, i) && !t.choices[i].legacy && a in t.choices[i].calls
  }

  predicate TwoToolCalls(t: Tools, i: int, a: int, j: int, b: int) {
    ToolCall(t, i, a) && ToolCall(t, j, b) && (i != j || a != b)
  }

  /** Every tool call has an identity, and no two have the same. */
  ghost predicate AllIdentified(t: Tools) {
    (forall i, a :: ToolCall(t, i, a) ==> t.choices[i].calls[a].id != "")
    && forall i, a, j, b :: TwoToolCalls(t, i, a, j, b) ==> t.choices[i].calls[a].id != t.choices[j].calls[b].id
  }

  /** A tool call without an identity, or one of two with the same, declared the type. */
  ghost predicate OnlyDeclaredEscape(t: Tools, ds: seq<ChatChoice>) {
    (forall i, a :: ToolCall(t, i, a) && t.choices[i].calls[a].id == "" ==> Declared(ds, i, a))
    && forall i, a, j, b :: TwoToolCalls(t, i, a, j, b) && t.choices[i].calls[a].id == t.choices[j].calls[b].id ==>
         Declared(ds, i, a) || Declared(ds, j, b)
  }

  lemma NoneDeclaredAt(ds: seq<ChatChoice>, i: int, a: int)
    requires NoneDeclared(ds)
    ensures !Declared(ds, i, a)
  {
  }

  /** Identities of an accepted stream: only calls that declare the type "legacy" escape the
      checks, so where no delta declares it every tool call has an identity of its own. */
  lemma CallsAreIdentified(req: Requirements, ds: seq<ChatChoice>)
    requires Choices(req, NO_TOOLS, ds).Advance?
    ensures var t := Choices(req, NO_TOOLS, ds).next;
      OnlyDeclaredEscape(t, ds) && (NoneDeclared(ds) ==> AllIdentified(t))
  {
    CallsAreDistinct(req, ds);
    TypesAreTold(req, ds);
    hide Choices, Declared, NoneDeclared, AcceptsTool, ValidArguments;
    var t := Choices(req, NO_TOOLS, ds).next;
    forall i, a | ToolCall(t, i, a) && !Declared(ds, i, a)
      ensures t.choices[i].calls[a].id != "" && Modern(t.choices[i], a)
    {
      assert ChoiceAt(t, i) == t.choices[i];
      assert !TypedLegacy(ChoiceAt(t, i), a);
      assert CallFinishes(req, t.choices[i].calls[a], {});
    }
    forall i, a, j, b | TwoToolCalls(t, i, a, j, b) && !Declared(ds, i, a) && !Declared(ds, j, b)
      ensures t.choices[i].calls[a].id != t.choices[j].calls[b].id
    {
      assert CallPair(t, i, a, j, b);
    }
    if NoneDeclared(ds) {
      forall i, a ensures !Declared(ds, i, a) { NoneDeclaredAt(ds, i, a); }
    }
  }

  // ---- Such calls are accepted ------------------------------------------------------------------------

  lemma SpacesAreNoBraces()
    ensures forall i :: 0 <= i < |SPACES| ==> |SPACES[i]| > 0 && SPACES[i][0] != '{'
    ensures forall i :: 0 <= i < |SPACES| ==> |SPACES[i]| > 0 && SPACES[i][|SPACES[i]| - 1] != '}'
  {
  }

  lemma BracesAreNoSpace()
    ensures TrimSpace("{}") == "{}"
  {
    SpacesAreNoBraces();
    hide LeadingSpace, TrailingSpace, SPACES;
    NoLeadingSpace("{}", SPACES);
    NoTrailingSpace("{}", SPACES);
  }

  lemma BracesAreAccepted()
    ensures JsonScanner.Accepts("{}")
  {
    var d := JsonGrammar.Document("", JsonGrammar.Obj(JsonGrammar.NoMembers, ""), "");
    assert JsonGrammar.DocumentText(d) == "{}" && JsonGrammar.Acceptable(d);
    JsonReading.ReadDocument(d);
    hide JsonScanner.Run, JsonGrammar.DocumentText;
  }

  lemma BracesAreArguments()
    ensures ValidArguments("{}")
  {
    BracesAreNoSpace();
    BracesAreAccepted();
    hide TrimSpace, JsonScanner.Accepts;
  }

  const ONE_CHOICE := Requirements(1, AutoTools, "", None, 0)

  function DeclaredDelta(index: int, id: string): CallDelta {
    CallDelta(Some(index), id, "legacy", "f", Piece("{}"))
  }

  const ESCAPING := ChatChoice(Index(0), Some("tool_calls"), Missing, Missing,
                               [DeclaredDelta(0, "same"), DeclaredDelta(1, "same"), DeclaredDelta(2, "")], None)

  function DeclaredCall(id: string): StreamCall {
    NO_CALL.(id := id, name := "f", kind := "legacy", args := "{}", deltas := true)
  }

  lemma DeclaredStep(w: Work, index: int, id: string)
    requires !w.choice.legacy && 0 <= index < MAX_TOOLS && index !in w.choice.calls && w.callCount < MAX_TOOLS
    requires w.argumentBytes + 2 <= JsonScanner.MAX_ARGUMENTS && |id| <= MAX_IDENTITY
    ensures DeltaStep(ONE_CHOICE, w, DeclaredDelta(index, id))
            == Machines.Advance(Work(w.choice.(calls := w.choice.calls[index := DeclaredCall(id)]), w.callCount + 1, w.argumentBytes + 2), [])
  {
    assert "" + id == id && "" + "f" == "f" && "" + "{}" == "{}";
  }

  lemma DeclaredCallsFinish(calls: map<int, StreamCall>)
    requires forall a :: a in calls ==> calls[a].kind == "legacy" && calls[a].name == "f" && calls[a].args == "{}"
    ensures CallsFinish(ONE_CHOICE, calls, {})
  {
    BracesAreArguments();
    hide ValidArguments;
  }

  function EscapingCalls(): map<int, StreamCall> {
    map[0 := DeclaredCall("same"), 1 := DeclaredCall("same"), 2 := DeclaredCall("")]
  }

  lemma EscapingMayFinish()
    ensures MayFinish(ONE_CHOICE, NO_CHOICE.(calls := EscapingCalls()), {}, "tool_calls")
  {
    DeclaredCallsFinish(EscapingCalls());
    assert 0 in EscapingCalls();
    hide CallsFinish, EscapingCalls;
  }

  lemma EscapingIs()
    ensures Ends(ESCAPING) && IndexOf(ESCAPING) == 0 && ESCAPING.finish.value == "tool_calls"
  {
  }

  lemma EscapingSteps() returns (t: Tools)
    ensures ChoiceStep(ONE_CHOICE, NO_TOOLS, ESCAPING) == Machines.Advance(t, [])
    ensures t.choices == map[0 := NO_CHOICE.(calls := EscapingCalls(), finished := true)]
  {
    EscapingAssembles();
    EscapingMayFinish();
    EscapingIs();
    hide Assemble, MayFinish, ModernIds, EscapingCalls, ESCAPING, Ends, IndexOf, ONE_CHOICE;
    t := ChoiceStep(ONE_CHOICE, NO_TOOLS, ESCAPING).next;
  }

  lemma EscapingEntered()
    ensures Enter(NO_LEDGER, ESCAPING) == Machines.Advance(Ledger({0}, 1, {0}, 1), [])
  {
    EscapingIs();
    hide Ends, IndexOf, ESCAPING;
    var nothing: set<int> := {};
    assert nothing + {0} == {0};
  }

  lemma EscapingEnds(t: Tools)
    requires t.choices == map[0 := NO_CHOICE.(calls := EscapingCalls(), finished := true)]
    ensures MayEnd(ONE_CHOICE, t, Ledger({0}, 1, {0}, 1))
    ensures ToolCall(t, 0, 0) && ToolCall(t, 0, 1) && ToolCall(t, 0, 2)
    ensures t.choices[0].calls[0].id == t.choices[0].calls[1].id && t.choices[0].calls[2].id == ""
  {
    assert t.choices.Keys == {0};
  }

  /** One choice whose calls declare the type "legacy" finishes, though two of its calls share
      an identity and a third has none; and with it the stream may end. */
  lemma DeclaredCallsEscape()
    ensures var r, l := Choices(ONE_CHOICE, NO_TOOLS, [ESCAPING]), EnterAll(NO_LEDGER, [ESCAPING]);
      r.Advance? && l.Advance? && MayEnd(ONE_CHOICE, r.next, l.next)
      && ToolCall(r.next, 0, 0) && ToolCall(r.next, 0, 1) && ToolCall(r.next, 0, 2)
      && r.next.choices[0].calls[0].id == r.next.choices[0].calls[1].id && r.next.choices[0].calls[2].id == ""
  {
    hide ChoiceStep, Enter, Machines.Run, EscapingCalls, MayEnd, ToolCall, Choices, EnterAll;
    var t := EscapingStream();
    EscapingLedger();
    EscapingEnds(t);
  }

  lemma EscapingStream() returns (t: Tools)
    ensures Choices(ONE_CHOICE, NO_TOOLS, [ESCAPING]) == Machines.Advance(t, [])
    ensures t.choices == map[0 := NO_CHOICE.(calls := EscapingCalls(), finished := true)]
  {
    hide ChoiceStep, Machines.Run, EscapingCalls, ESCAPING, ONE_CHOICE;
    t := EscapingSteps();
    Machines.RunOne(ChoiceStepper(ONE_CHOICE), NO_TOOLS, ESCAPING);
  }

  lemma EscapingLedger()
    ensures EnterAll(NO_LEDGER, [ESCAPING]) == Machines.Advance(Ledger({0}, 1, {0}, 1), [])
  {
    hide Enter, Machines.Run, ESCAPING;
    EscapingEntered();
    Machines.RunOne(Enter, NO_LEDGER, ESCAPING);
  }

  lemma EscapingAssembles()
    ensures Assemble(ONE_CHOICE, NO_TOOLS, ESCAPING)
            == Machines.Advance(Work(NO_CHOICE.(calls := EscapingCalls()), 3, 6), [])
  {
    var ds := ESCAPING.calls;
    var w0 := Work(NO_CHOICE, 0, 0);
    var w1 := Work(NO_CHOICE.(calls := map[0 := DeclaredCall("same")]), 1, 2);
    var w2 := Work(NO_CHOICE.(calls := map[0 := DeclaredCall("same"), 1 := DeclaredCall("same")]), 2, 4);
    DeclaredStep(w0, 0, "same");
    DeclaredStep(w1, 1, "same");
    DeclaredStep(w2, 2, "");
    hide DeltaStep, DeclaredCall, DeclaredDelta;
    Machines.RunStep(DeltaStepper(ONE_CHOICE), w0, ds, 0);
    Machines.RunStep(DeltaStepper(ONE_CHOICE), w0, ds, 1);
    Machines.RunStep(DeltaStepper(ONE_CHOICE), w0, ds, 2);
    assert ds[..0] == [] && ds[..3] == ds;
  }

  // ---- Argument bytes ------------------------------------------------------------------------------

  function PieceBytes(p: Piece): nat {
    if p.Piece? then |p.text| else 0
  }

  function DeltaBytes(ds: seq<CallDelta>): nat {
    if |ds| == 0 then 0 else DeltaBytes(ds[..|ds| - 1]) + PieceBytes(ds[|ds| - 1].arguments)
  }

  function ChoiceBytes(ds: seq<ChatChoice>): nat {
    if |ds| == 0 then 0
    else
      var d := ds[|ds| - 1];
      ChoiceBytes(ds[..|ds| - 1]) + DeltaBytes(d.calls) + (if d.legacy.Some? then PieceBytes(d.legacy.value.arguments) else 0)
  }

  lemma {:induction false} DeltasCount(req: Requirements, w: Work, ds: seq<CallDelta>)
    requires w.argumentBytes <= JsonScanner.MAX_ARGUMENTS
    ensures var r := Machines.Run(DeltaStepper(req), w, ds);
      r.Advance? ==> r.next.argumentBytes == w.argumentBytes + DeltaBytes(ds) && r.next.argumentBytes <= JsonScanner.MAX_ARGUMENTS
  {
    if |ds| > 0 { DeltasCount(req, w, ds[..|ds| - 1]); }
  }

  /** The budget for tool arguments is spent on exactly the pieces that arrived. */
  lemma {:induction false} ArgumentBytesCounted(req: Requirements, ds: seq<ChatChoice>)
    requires Choices(req, NO_TOOLS, ds).Advance?
    ensures Choices(req, NO_TOOLS, ds).next.argumentBytes == ChoiceBytes(ds) <= JsonScanner.MAX_ARGUMENTS
  {
    if |ds| > 0 {
      hide DeltaStepper, MayFinish, IndexGood;
      ArgumentBytesCounted(req, ds[..|ds| - 1]);
      var t, d := Choices(req, NO_TOOLS, ds[..|ds| - 1]).next, ds[|ds| - 1];
      DeltasCount(req, Work(Payload(ChoiceAt(t, IndexOf(d)), d), t.callCount, t.argumentBytes), d.calls);
    }
  }
}
