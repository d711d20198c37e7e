/**
  Reading the root tells the checker its members one after the other; here that running
  account becomes one condition on the whole tree.
 */
module RootAccount {
  import opened GoText
  import opened JsonGrammar
  import opened JsonScanner
  import opened Places
  import opened CompletionContract
  import opened ChatDocument
  import opened AnswerDocument
  import opened JsonReading
  import opened ChatReading
  import opened ChatVerdict
  import opened ItemReading
  import opened RootReading
  import Machines

  // ---- Recording calls ------------------------------------------------------------------------

  function NamedIds(ids: seq<string>): set<string> {
    set id | id in ids && id != ""
  }

  /** The tallies after calls with the identities `ids`. */
  predicate Recorded(c: Contract, ids: seq<string>) {
    c.toolCount == |ids| && c.toolIds == NamedIds(ids)
  }

  predicate Recordable(ids: seq<string>) {
    |ids| <= MAX_TOOLS && DistinctIds(ids)
  }

  lemma RecordToolIs(c: Contract, before: seq<string>, id: string)
    requires Recorded(c, before) && Recordable(before)
    ensures RecordTool(c, id).Advance? <==> Recordable(before + [id])
    ensures RecordTool(c, id).Advance? ==> Recorded(RecordTool(c, id).next, before + [id])
  {
    var all := before + [id];
    if id != "" && id in before {
      var i :| 0 <= i < |before| && before[i] == id;
      assert all[i] == all[|before|];
    }
    assert NamedIds(all) == NamedIds(before) + (if id == "" then {} else {id}) by {
      forall x ensures x in NamedIds(all) <==> x in NamedIds(before) + (if id == "" then {} else {id}) {
        assert x in all <==> x in before || x == id;
      }
    }
  }

  lemma RecordablePrefix(a: seq<string>, b: seq<string>)
    requires Recordable(a + b)
    ensures Recordable(a)
  {
    assert forall i :: 0 <= i < |a| ==> (a + b)[i] == a[i];
  }

  lemma {:induction false} RecordAllIs(c: Contract, before: seq<string>, ids: seq<string>)
    requires Recorded(c, before) && Recordable(before)
    ensures RecordAll(c, ids).Advance? <==> Recordable(before + ids)
    ensures RecordAll(c, ids).Advance? ==> Recorded(RecordAll(c, ids).next, before + ids)
  {
    hide Recordable, Recorded, RecordTool;
    if |ids| == 0 {
      assert before + ids == before;
    } else {
      var front, last := ids[..|ids| - 1], ids[|ids| - 1];
      assert before + ids == before + front + [last];
      RecordAllIs(c, before, front);
      if RecordAll(c, front).Advance? {
        RecordToolIs(RecordAll(c, front).next, before + front, last);
      } else if Recordable(before + ids) {
        RecordablePrefix(before + front, [last]);
      }
    }
  }

  function FinishedCount(choices: seq<Members>): nat {
    if |choices| == 0 then 0
    else FinishedCount(choices[..|choices| - 1]) + (if FinishedAt(choices[|choices| - 1], false) then 1 else 0)
  }

  lemma {:induction false} FinishedAll(choices: seq<Members>)
    ensures FinishedCount(choices) <= |choices|
    ensures FinishedCount(choices) == |choices| <==> forall i :: 0 <= i < |choices| ==> FinishedAt(choices[i], false)
  {
    hide FinishedAt;
    if |choices| > 0 {
      var front := choices[..|choices| - 1];
      FinishedAll(front);
      assert forall i :: 0 <= i < |front| ==> front[i] == choices[i];
    }
  }

  function Indexes(choices: seq<Members>): set<int> {
    set i | 0 <= i < |choices| :: IndexOf(choices[i])
  }

  lemma IndexesGrow(choices: seq<Members>)
    requires |choices| > 0
    ensures var front, last := choices[..|choices| - 1], choices[|choices| - 1];
      Indexes(choices) == Indexes(front) + {IndexOf(last)}
      && (IndexesDiffer(choices) <==> IndexesDiffer(front) && IndexOf(last) !in Indexes(front))
  {
    hide IndexOf;
    var front, last := choices[..|choices| - 1], choices[|choices| - 1];
    forall x ensures x in Indexes(choices) <==> x in Indexes(front) + {IndexOf(last)} {
      if x in Indexes(choices) {
        var i :| 0 <= i < |choices| && x == IndexOf(choices[i]);
        if i < |front| { assert front[i] == choices[i]; }
      }
      if x in Indexes(front) {
        var i :| 0 <= i < |front| && x == IndexOf(front[i]);
        assert front[i] == choices[i];
      }
      if x == IndexOf(last) { assert last == choices[|choices| - 1]; }
    }
    if IndexesDiffer(front) && IndexOf(last) !in Indexes(front) {
      forall i, j | 0 <= i < j < |choices| ensures IndexOf(choices[i]) != IndexOf(choices[j]) {
        assert front[i] == choices[i];
        if j < |front| { assert front[j] == choices[j]; }
      }
    }
    if IndexesDiffer(choices) {
      forall i, j | 0 <= i < j < |front| ensures IndexOf(front[i]) != IndexOf(front[j]) {
        assert front[i] == choices[i] && front[j] == choices[j];
      }
    }
  }

  // ---- The choices ----------------------------------------------------------------------------

  /** The tallies after these choices. */
  predicate Admitted(req: Requirements, c: Contract, choices: seq<Members>) {
    c.choices == |choices| && c.finishedChoices == FinishedCount(choices)
    && c.seen == if req.expectedChoices > 0 then Indexes(choices) else {}
  }

  lemma AdmitSays(op: Operation, req: Requirements, c: Contract, ms: Members)
    ensures var calls := RecordAll(c, ChoiceCalls(ms));
      var r := Admit(op, req, c, ms);
      (r.Advance? <==> ChoiceComplete(op, req, ms) && calls.Advance? && (req.expectedChoices > 0 ==> IndexOf(ms) !in c.seen))
      && (r.Advance? ==> r.next == calls.next.(choices := c.choices + 1,
                                               seen := if req.expectedChoices > 0 then c.seen + {IndexOf(ms)} else c.seen,
                                               finishedChoices := c.finishedChoices + (if FinishedAt(ms, false) then 1 else 0)))
  {
    hide ChoiceComplete, RecordAll, ChoiceCalls, FinishedAt, IndexOf;
    RecordAllKeeps(c, ChoiceCalls(ms), c.choices);
  }

  lemma ChoicesCompleteMore(op: Operation, req: Requirements, choices: seq<Members>)
    requires |choices| > 0
    ensures var front, last := choices[..|choices| - 1], choices[|choices| - 1];
      ChoicesComplete(op, req, choices)
      <==> ChoicesComplete(op, req, front) && ChoiceComplete(op, req, last) && (req.expectedChoices > 0 ==> IndexOf(last) !in Indexes(front))
  {
    hide ChoiceComplete, IndexesDiffer, Indexes, IndexOf;
    var front := choices[..|choices| - 1];
    IndexesGrow(choices);
    assert forall i :: 0 <= i < |front| ==> front[i] == choices[i];
  }

  /** What a choice leaves alone. */
  predicate OnlyChoices(c: Contract, d: Contract) {
    d == c.(choices := d.choices, finishedChoices := d.finishedChoices, seen := d.seen, toolCount := d.toolCount, toolIds := d.toolIds)
  }

  lemma AdmitOne(op: Operation, req: Requirements, c: Contract, before: seq<Members>, ids: seq<string>, ms: Members)
    requires Admitted(req, c, before) && Recorded(c, ids) && Recordable(ids) && ChoicesComplete(op, req, before)
    ensures var r := Admit(op, req, c, ms);
      (r.Advance? <==> ChoicesComplete(op, req, before + [ms]) && Recordable(ids + ChoiceCalls(ms)))
      && (r.Advance? ==> Admitted(req, r.next, before + [ms]) && Recorded(r.next, ids + ChoiceCalls(ms)) && OnlyChoices(c, r.next))
  {
    hide ChoiceComplete, ChoicesComplete, Indexes, RecordAll, ChoiceCalls, Recordable, NamedIds, FinishedAt, IndexOf, Admit;
    var all := before + [ms];
    assert all[..|before|] == before;
    ChoicesCompleteMore(op, req, all);
    IndexesGrow(all);
    AdmitSays(op, req, c, ms);
    RecordAllIs(c, ids, ChoiceCalls(ms));
    RecordAllKeeps(c, ChoiceCalls(ms), c.choices);
  }

  lemma AllCallsMore(choices: seq<Members>, ms: Members)
    ensures AllCalls(choices + [ms]) == AllCalls(choices) + ChoiceCalls(ms)
  {
    assert (choices + [ms])[..|choices|] == choices;
  }

  /** Admitting a list of choices is one condition on it and on what came before. */
  lemma {:induction false} AdmitMore(op: Operation, req: Requirements, c: Contract, before: seq<Members>, ids: seq<string>, more: seq<Members>)
    requires Admitted(req, c, before) && Recorded(c, ids) && Recordable(ids) && ChoicesComplete(op, req, before)
    ensures var r := AdmitAll(op, req, c, more);
      (r.Advance? <==> ChoicesComplete(op, req, before + more) && Recordable(ids + AllCalls(more)))
      && (r.Advance? ==> Admitted(req, r.next, before + more) && Recorded(r.next, ids + AllCalls(more)) && OnlyChoices(c, r.next))
    decreases |more|
  {
    hide Admitted, Recorded, Recordable, ChoicesComplete, Admit, ChoiceCalls;
    if |more| == 0 {
      assert before + more == before && ids + AllCalls(more) == ids;
    } else {
      var front, last := more[..|more| - 1], more[|more| - 1];
      AdmitMore(op, req, c, before, ids, front);
      assert more == front + [last] && before + more == before + front + [last];
      AllCallsMore(front, last);
      assert ids + AllCalls(more) == ids + AllCalls(front) + ChoiceCalls(last);
      if AdmitAll(op, req, c, front).Advance? {
        AdmitOne(op, req, AdmitAll(op, req, c, front).next, before + front, ids + AllCalls(front), last);
      } else {
        NoMoreChoices(op, req, before + front, ids + AllCalls(front), last);
      }
    }
  }

  lemma NoMoreChoices(op: Operation, req: Requirements, before: seq<Members>, ids: seq<string>, ms: Members)
    requires !ChoicesComplete(op, req, before) || !Recordable(ids)
    ensures !ChoicesComplete(op, req, before + [ms]) || !Recordable(ids + ChoiceCalls(ms))
  {
    hide ChoicesComplete, ChoiceCalls, Recordable;
    var all := before + [ms];
    assert all[..|before|] == before;
    ChoicesCompleteMore(op, req, all);
    if Recordable(ids + ChoiceCalls(ms)) { RecordablePrefix(ids, ChoiceCalls(ms)); }
  }

  // ---- The units ------------------------------------------------------------------------------

  predicate EachUnit(op: Operation, req: Requirements, units: seq<Members>) {
    forall i :: 0 <= i < |units| ==> UnitComplete(op, req, units[i])
  }

  predicate OnlyCalls(c: Contract, d: Contract) {
    d == c.(tools := d.tools, toolCount := d.toolCount, toolIds := d.toolIds)
  }

  lemma TakeOne(op: Operation, req: Requirements, c: Contract, ids: seq<string>, ms: Members)
    requires Recorded(c, ids) && Recordable(ids)
    ensures var r := Take(op, req, c, ms);
      (r.Advance? <==> UnitComplete(op, req, ms) && Recordable(ids + UnitCalls(op, ms)))
      && (r.Advance? ==> Recorded(r.next, ids + UnitCalls(op, ms)) && r.next.tools == c.tools + |UnitCalls(op, ms)| && OnlyCalls(c, r.next))
  {
    hide UnitComplete, RecordAll, UnitCalls, Recordable, NamedIds;
    RecordAllIs(c, ids, UnitCalls(op, ms));
    RecordAllKeeps(c, UnitCalls(op, ms), c.choices);
  }

  lemma {:induction false} TakeMore(op: Operation, req: Requirements, c: Contract, ids: seq<string>, more: seq<Members>)
    requires Recorded(c, ids) && Recordable(ids)
    ensures var r := TakeAll(op, req, c, more);
      (r.Advance? <==> EachUnit(op, req, more) && Recordable(ids + AllUnitCalls(op, more)))
      && (r.Advance? ==> Recorded(r.next, ids + AllUnitCalls(op, more)) && r.next.tools == c.tools + |AllUnitCalls(op, more)| && OnlyCalls(c, r.next))
    decreases |more|
  {
    hide Recorded, Recordable, UnitComplete, Take, UnitCalls;
    if |more| == 0 {
      assert ids + AllUnitCalls(op, more) == ids;
    } else {
      var front, last := more[..|more| - 1], more[|more| - 1];
      TakeMore(op, req, c, ids, front);
      EachUnitMore(op, req, more);
      assert ids + AllUnitCalls(op, more) == ids + AllUnitCalls(op, front) + UnitCalls(op, last);
      if TakeAll(op, req, c, front).Advance? {
        TakeOne(op, req, TakeAll(op, req, c, front).next, ids + AllUnitCalls(op, front), last);
      } else if Recordable(ids + AllUnitCalls(op, more)) {
        RecordablePrefix(ids + AllUnitCalls(op, front), UnitCalls(op, last));
      }
    }
  }

  lemma EachUnitMore(op: Operation, req: Requirements, units: seq<Members>)
    requires |units| > 0
    ensures EachUnit(op, req, units) <==> EachUnit(op, req, units[..|units| - 1]) && UnitComplete(op, req, units[|units| - 1])
  {
    hide UnitComplete;
    var front := units[..|units| - 1];
    assert forall i :: 0 <= i < |front| ==> front[i] == units[i];
  }

  lemma EachUnitAppend(op: Operation, req: Requirements, a: seq<Members>, b: seq<Members>)
    ensures EachUnit(op, req, a + b) <==> EachUnit(op, req, a) && EachUnit(op, req, b)
  {
    hide UnitComplete;
    assert forall i :: 0 <= i < |a| ==> (a + b)[i] == a[i];
    assert forall i :: 0 <= i < |b| ==> (a + b)[|a| + i] == b[i];
  }

  lemma {:induction false} AllUnitCallsAppend(op: Operation, a: seq<Members>, b: seq<Members>)
    ensures AllUnitCalls(op, a + b) == AllUnitCalls(op, a) + AllUnitCalls(op, b)
    decreases |b|
  {
    hide UnitCalls;
    if |b| == 0 {
      assert a + b == a;
    } else {
      assert (a + b)[..|a + b| - 1] == a + b[..|b| - 1];
      AllUnitCallsAppend(op, a, b[..|b| - 1]);
    }
  }

  lemma {:induction false} AllCallsAppend(a: seq<Members>, b: seq<Members>)
    ensures AllCalls(a + b) == AllCalls(a) + AllCalls(b)
    decreases |b|
  {
    hide ChoiceCalls;
    if |b| == 0 {
      assert a + b == a;
    } else {
      assert (a + b)[..|a + b| - 1] == a + b[..|b| - 1];
      AllCallsAppend(a, b[..|b| - 1]);
    }
  }

  // ---- The account of the root ------------------------------------------------------------------

  function MemberChoices(key: string, v: Value): seq<Members> {
    if key == "choices" && v.Arr? then Objects(v.items) else []
  }

  function MemberUnits(op: Operation, key: string, v: Value): seq<Members> {
    if op != Chat && key == UnitKey(op) && v.Arr? then Objects(v.items) else []
  }

  /** All calls, in the order they are recorded. */
  function CallsIn(op: Operation, ms: Members): seq<string> {
    match ms
    case NoMembers => []
    case AddMember(front, _, key, _, _, value, _) =>
      CallsIn(op, front) + AllCalls(MemberChoices(NameOf(key), value)) + AllUnitCalls(op, MemberUnits(op, NameOf(key), value))
  }

  predicate MemberGood(op: Operation, key: string, v: Value) {
    v.Arr? ==> ArrayGood(op, key, v.items)
  }

  lemma RootGrows(op: Operation, ms: Members)
    requires ms.AddMember?
    ensures ChoicesOf(ms) == ChoicesOf(ms.front) + MemberChoices(NameOf(ms.key), ms.value)
    ensures UnitsOf(op, ms) == UnitsOf(op, ms.front) + MemberUnits(op, NameOf(ms.key), ms.value)
    ensures RootGood(op, ms) <==> RootGood(op, ms.front) && MemberGood(op, NameOf(ms.key), ms.value)
  {
    hide NameOf, ArrayGood, Objects;
  }

  /** The flags that the members of the root set. */
  predicate Flags(op: Operation, c: Contract, ms: Members) {
    c.failed == ReportsError(op, ms) && c.output == HasArray(ms, "output") && c.content == HasArray(ms, "content")
    && c.terminal == Ends(op, ms) && c.stopReason == StopReasonOf(op, ms) && c.tokenCount == CountsTokens(ms)
  }

  predicate Lists(op: Operation, req: Requirements, c: Contract, ms: Members) {
    Admitted(req, c, ChoicesOf(ms)) && Recorded(c, CallsIn(op, ms)) && c.tools == |AllUnitCalls(op, UnitsOf(op, ms))|
  }

  predicate Fits(op: Operation, req: Requirements, ms: Members) {
    RootGood(op, ms) && ChoicesComplete(op, req, ChoicesOf(ms)) && EachUnit(op, req, UnitsOf(op, ms)) && Recordable(CallsIn(op, ms))
  }

  /** A member makes a difference only under certain names. */
  lemma FailuresFront(op: Operation, ms: Members)
    requires ms.AddMember? && NameOf(ms.key) !in {"error", "status"}
    ensures ReportsError(op, ms) == ReportsError(op, ms.front)
  {
    hide NameOf, LeafText;
  }

  lemma EndsFront(op: Operation, ms: Members)
    requires ms.AddMember? && NameOf(ms.key) !in {"status", "stop_reason"}
    ensures Ends(op, ms) == Ends(op, ms.front) && StopReasonOf(op, ms) == StopReasonOf(op, ms.front)
  {
    hide NameOf, Shown, LeafText;
  }

  lemma StatusFront(op: Operation, ms: Members)
    requires ms.AddMember? && NameOf(ms.key) == "status"
    ensures StopReasonOf(op, ms) == StopReasonOf(op, ms.front)
  {
    hide NameOf, Shown, LeafText;
  }

  lemma TokensFront(ms: Members)
    requires ms.AddMember? && NameOf(ms.key) != "input_tokens"
    ensures CountsTokens(ms) == CountsTokens(ms.front)
  {
    hide NameOf, Count;
  }

  lemma ArraysFront(ms: Members)
    requires ms.AddMember?
    ensures HasArray(ms, "output") <==> HasArray(ms.front, "output") || (NameOf(ms.key) == "output" && ms.value.Arr?)
    ensures HasArray(ms, "content") <==> HasArray(ms.front, "content") || (NameOf(ms.key) == "content" && ms.value.Arr?)
  {
    hide NameOf;
  }

  lemma ErrorFlags(op: Operation, c: Contract, ms: Members)
    requires ms.AddMember? && NameOf(ms.key) == "error" && Flags(op, c, ms.front)
    ensures Flags(op, if IsLeaf(ms.value) then CompletionContract.ObserveLeaf(op, c, Error, LeafText(ms.value), LeafKind(ms.value)) else ObserveOpen(op, c, Error), ms)
  {
    hide NameOf, Shown, Count, HasArray, Ends, StopReasonOf, CountsTokens;
    ArraysFront(ms);
    EndsFront(op, ms);
    TokensFront(ms);
  }

  lemma StatusFlags(op: Operation, c: Contract, ms: Members)
    requires ms.AddMember? && NameOf(ms.key) == "status" && Flags(op, c, ms.front)
    ensures Flags(op, if IsLeaf(ms.value) then CompletionContract.ObserveLeaf(op, c, Status, LeafText(ms.value), LeafKind(ms.value)) else ObserveOpen(op, c, Status), ms)
  {
    hide NameOf, Shown, Count, HasArray, StopReasonOf, CountsTokens;
    ArraysFront(ms);
    StatusFront(op, ms);
    TokensFront(ms);
  }

  lemma StopFlags(op: Operation, c: Contract, ms: Members)
    requires ms.AddMember? && NameOf(ms.key) == "stop_reason" && Flags(op, c, ms.front)
    ensures Flags(op, if IsLeaf(ms.value) then CompletionContract.ObserveLeaf(op, c, StopReason, LeafText(ms.value), LeafKind(ms.value))
                      else ObserveOpen(op, c, StopReason), ms)
  {
    hide NameOf, Shown, Count, HasArray, ReportsError, CountsTokens;
    ArraysFront(ms);
    FailuresFront(op, ms);
    TokensFront(ms);
  }

  lemma TokenFlags(op: Operation, c: Contract, ms: Members)
    requires ms.AddMember? && NameOf(ms.key) == "input_tokens" && Flags(op, c, ms.front)
    ensures Flags(op, if IsLeaf(ms.value) then CompletionContract.ObserveLeaf(op, c, InputTokens, LeafText(ms.value), LeafKind(ms.value))
                      else ObserveOpen(op, c, InputTokens), ms)
  {
    hide NameOf, Shown, HasArray, ReportsError, Ends, StopReasonOf;
    ArraysFront(ms);
    FailuresFront(op, ms);
    EndsFront(op, ms);
    if ms.value.Str? { assert Count(LeafText(ms.value), 's').None?; }
    hide Count;
  }

  lemma OtherFlags(op: Operation, c: Contract, ms: Members)
    requires ms.AddMember? && NameOf(ms.key) !in {"error", "status", "stop_reason", "input_tokens"} && Flags(op, c, ms.front)
    ensures !(ms.value.Arr? && NameOf(ms.key) in {"output", "content"}) ==> Flags(op, c, ms)
    ensures ms.value.Arr? && NameOf(ms.key) in {"output", "content"} ==> Flags(op, Flagged(c, Member(Root, NameOf(ms.key))), ms)
  {
    hide NameOf, HasArray, ReportsError, CountsTokens, Ends, StopReasonOf, Member;
    FailuresFront(op, ms);
    EndsFront(op, ms);
    TokensFront(ms);
    ArraysFront(ms);
    RootMemberPlace(NameOf(ms.key));
  }

  lemma NothingObserved(op: Operation, c: Contract, key: string, value: bytes, kind: char)
    requires key !in {"error", "status", "stop_reason", "input_tokens"}
    ensures CompletionContract.ObserveLeaf(op, c, Member(Root, key), value, kind) == c && ObserveOpen(op, c, Member(Root, key)) == c
  {
    RootMemberPlace(key);
    hide Member;
  }

  /** A leaf, or a container that is only told of, sets flags. */
  lemma LeafFlags(op: Operation, c: Contract, ms: Members)
    requires ms.AddMember? && IsLeaf(ms.value) && Flags(op, c, ms.front)
    ensures Flags(op, CompletionContract.ObserveLeaf(op, c, Member(Root, NameOf(ms.key)), LeafText(ms.value), LeafKind(ms.value)), ms)
  {
    hide NameOf, Member, Flags, CompletionContract.ObserveLeaf, ObserveOpen, LeafText, LeafKind;
    var key := NameOf(ms.key);
    RootMemberPlace(key);
    if key == "error" { ErrorFlags(op, c, ms); }
    else if key == "status" { StatusFlags(op, c, ms); }
    else if key == "stop_reason" { StopFlags(op, c, ms); }
    else if key == "input_tokens" { TokenFlags(op, c, ms); }
    else {
      OtherFlags(op, c, ms);
      NothingObserved(op, c, key, LeafText(ms.value), LeafKind(ms.value));
    }
  }

  lemma ContainerFlags(op: Operation, c: Contract, ms: Members)
    requires ms.AddMember? && !IsLeaf(ms.value) && Flags(op, c, ms.front)
    requires ms.value.Arr? ==> NameOf(ms.key) != "output" && NameOf(ms.key) != "content"
    ensures Flags(op, ObserveOpen(op, c, Member(Root, NameOf(ms.key))), ms)
  {
    hide NameOf, Member, Flags, CompletionContract.ObserveLeaf, ObserveOpen;
    var key := NameOf(ms.key);
    RootMemberPlace(key);
    if key == "error" { ErrorFlags(op, c, ms); }
    else if key == "status" { StatusFlags(op, c, ms); }
    else if key == "stop_reason" { StopFlags(op, c, ms); }
    else if key == "input_tokens" { TokenFlags(op, c, ms); }
    else {
      OtherFlags(op, c, ms);
      NothingObserved(op, c, key, "", 'v');
    }
  }

  lemma ArrayFlags(op: Operation, c: Contract, ms: Members)
    requires ms.AddMember? && ms.value.Arr? && Flags(op, c, ms.front) && (NameOf(ms.key) == "output" || NameOf(ms.key) == "content")
    ensures Flags(op, Flagged(c, Member(Root, NameOf(ms.key))), ms)
  {
    hide NameOf, Member, Flags, Flagged;
    OtherFlags(op, c, ms);
  }

  lemma SameFlags(op: Operation, c: Contract, d: Contract, ms: Members)
    requires Flags(op, c, ms) && (OnlyChoices(c, d) || OnlyCalls(c, d))
    ensures Flags(op, d, ms)
  {
    hide ReportsError, HasArray, Ends, StopReasonOf, CountsTokens;
  }

  /** A member that holds no choices and no units adds nothing to the lists. */
  lemma SameLists(op: Operation, req: Requirements, c: Contract, d: Contract, ms: Members)
    requires ms.AddMember? && Lists(op, req, c, ms.front) && Fits(op, req, ms.front)
    requires MemberChoices(NameOf(ms.key), ms.value) == [] && MemberUnits(op, NameOf(ms.key), ms.value) == []
    requires d == c.(failed := d.failed, output := d.output, content := d.content, terminal := d.terminal, stopReason := d.stopReason,
                     tokenCount := d.tokenCount)
    ensures Lists(op, req, d, ms) && (Fits(op, req, ms) <==> MemberGood(op, NameOf(ms.key), ms.value))
  {
    RootGrows(op, ms);
    hide NameOf, MemberGood, MemberChoices, MemberUnits, RootGood, ChoicesComplete, EachUnit, Recordable, Recorded, Admitted;
    assert ChoicesOf(ms) == ChoicesOf(ms.front) && UnitsOf(op, ms) == UnitsOf(op, ms.front);
    assert CallsIn(op, ms) == CallsIn(op, ms.front);
    TallyOnly(req, c, d, ChoicesOf(ms), CallsIn(op, ms));
  }

  lemma TallyOnly(req: Requirements, c: Contract, d: Contract, choices: seq<Members>, ids: seq<string>)
    requires d.choices == c.choices && d.finishedChoices == c.finishedChoices && d.seen == c.seen && d.toolCount == c.toolCount && d.toolIds == c.toolIds
    ensures Admitted(req, c, choices) <==> Admitted(req, d, choices)
    ensures Recorded(c, ids) <==> Recorded(d, ids)
  {
    hide FinishedCount, Indexes, NamedIds;
  }

  lemma ObserveSetsFlags(op: Operation, c: Contract, place: Place, value: bytes, kind: char)
    ensures var d := CompletionContract.ObserveLeaf(op, c, place, value, kind);
      d == c.(failed := d.failed, terminal := d.terminal, stopReason := d.stopReason, tokenCount := d.tokenCount)
    ensures var d := ObserveOpen(op, c, place); d == c.(failed := d.failed, terminal := d.terminal, stopReason := d.stopReason)
  {
    hide Count;
  }

  /** The account after one member more. */
  predicate Accounts(op: Operation, req: Requirements, r: Verdict, ms: Members) {
    (r.Advance? <==> Fits(op, req, ms)) && (r.Advance? ==> Lists(op, req, r.next, ms) && Flags(op, r.next, ms))
  }

  lemma ChoicesAccount(op: Operation, req: Requirements, c: Contract, ms: Members)
    requires ms.AddMember? && NameOf(ms.key) == "choices" && ms.value.Arr? && Lists(op, req, c, ms.front) && Flags(op, c, ms.front) && Fits(op, req, ms.front)
    ensures Accounts(op, req, Only(ChoicesAllowed(op, ms.value.items), AdmitAll(op, req, c, Objects(ms.value.items))), ms)
  {
    hide NameOf, ChoicesAllowed, RootGood, ChoicesComplete, EachUnit, Recordable, Recorded, Admitted, AdmitAll, Objects, Flags, ChoicesOf, UnitsOf,
      AllCalls, AllUnitCalls, ObserveOpen, OnlyChoices;
    var more := Objects(ms.value.items);
    RootGrows(op, ms);
    assert MemberUnits(op, "choices", ms.value) == [];
    NoUnits(op);
    assert UnitsOf(op, ms) == UnitsOf(op, ms.front);
    assert CallsIn(op, ms) == CallsIn(op, ms.front) + AllCalls(more);
    AdmitMore(op, req, c, ChoicesOf(ms.front), CallsIn(op, ms.front), more);
    var r := AdmitAll(op, req, c, more);
    if r.Advance? {
      ChoicesFlags(op, c, ms);
      SameFlags(op, c, r.next, ms);
      ToolsKept(c, r.next);
    }
  }

  lemma NoUnits(op: Operation)
    ensures AllUnitCalls(op, []) == []
  {
  }

  lemma ToolsKept(c: Contract, d: Contract)
    requires OnlyChoices(c, d)
    ensures d.tools == c.tools
  {
  }

  lemma ChoicesFlags(op: Operation, c: Contract, ms: Members)
    requires ms.AddMember? && NameOf(ms.key) == "choices" && ms.value.Arr? && Flags(op, c, ms.front)
    ensures Flags(op, c, ms)
  {
    ContainerFlags(op, c, ms);
    RootMemberPlace("choices");
    hide Flags, NameOf, Member;
  }

  lemma UnitsAccount(op: Operation, req: Requirements, c: Contract, ms: Members)
    requires ms.AddMember? && op != Chat && NameOf(ms.key) == UnitKey(op) && ms.value.Arr?
    requires Lists(op, req, c, ms.front) && Flags(op, c, ms.front) && Fits(op, req, ms.front)
    ensures Accounts(op, req, Only(AllObjects(ms.value.items), TakeAll(op, req, Flagged(c, ArrayPlace(op)), Objects(ms.value.items))), ms)
  {
    hide NameOf, AllObjects, RootGood, ChoicesComplete, EachUnit, Recordable, Recorded, Admitted, TakeAll, Objects, Flags, ChoicesOf, UnitsOf,
      AllCalls, AllUnitCalls, ObserveOpen, OnlyCalls, Flagged, Member;
    var more := Objects(ms.value.items);
    var flagged := Flagged(c, ArrayPlace(op));
    RootGrows(op, ms);
    assert MemberChoices(UnitKey(op), ms.value) == [];
    NoChoices();
    assert ChoicesOf(ms) == ChoicesOf(ms.front);
    assert CallsIn(op, ms) == CallsIn(op, ms.front) + AllUnitCalls(op, more);
    UnitPlaces(op);
    ArrayFlags(op, c, ms);
    FlaggedTally(req, c, ArrayPlace(op), ChoicesOf(ms.front), CallsIn(op, ms.front));
    TakeMore(op, req, flagged, CallsIn(op, ms.front), more);
    EachUnitAppend(op, req, UnitsOf(op, ms.front), more);
    AllUnitCallsAppend(op, UnitsOf(op, ms.front), more);
    var r := TakeAll(op, req, flagged, more);
    if r.Advance? {
      SameFlags(op, flagged, r.next, ms);
      UnitsTally(req, flagged, r.next, ChoicesOf(ms.front));
    }
  }

  lemma NoChoices()
    ensures AllCalls([]) == []
  {
  }

  lemma UnitPlaces(op: Operation)
    requires op != Chat
    ensures Member(Root, UnitKey(op)) == ArrayPlace(op) && (UnitKey(op) == "output" || UnitKey(op) == "content") && UnitKey(op) != "choices"
  {
    RootMemberPlace(UnitKey(op));
    hide Member;
  }

  lemma FlaggedTally(req: Requirements, c: Contract, place: Place, choices: seq<Members>, ids: seq<string>)
    ensures Admitted(req, c, choices) <==> Admitted(req, Flagged(c, place), choices)
    ensures Recorded(c, ids) <==> Recorded(Flagged(c, place), ids)
    ensures Flagged(c, place).tools == c.tools
  {
    TallyOnly(req, c, Flagged(c, place), choices, ids);
  }

  lemma UnitsTally(req: Requirements, c: Contract, d: Contract, choices: seq<Members>)
    requires OnlyCalls(c, d) && Admitted(req, c, choices)
    ensures Admitted(req, d, choices)
  {
    hide FinishedCount, Indexes;
  }

  lemma LeafAccounts(op: Operation, req: Requirements, c: Contract, ms: Members)
    requires ms.AddMember? && IsLeaf(ms.value) && Lists(op, req, c, ms.front) && Flags(op, c, ms.front) && Fits(op, req, ms.front)
    ensures Accounts(op, req, MemberTold(op, req, c, NameOf(ms.key), ms.value), ms)
  {
    hide NameOf, Member, ArrayGood, Fits, Lists, Flags, CompletionContract.ObserveLeaf, LeafText, LeafKind;
    var place := Member(Root, NameOf(ms.key));
    LeafFlags(op, c, ms);
    ObserveSetsFlags(op, c, place, LeafText(ms.value), LeafKind(ms.value));
    SameLists(op, req, c, CompletionContract.ObserveLeaf(op, c, place, LeafText(ms.value), LeafKind(ms.value)), ms);
  }

  lemma ContainerAccounts(op: Operation, req: Requirements, c: Contract, ms: Members)
    requires ms.AddMember? && !IsLeaf(ms.value) && Lists(op, req, c, ms.front) && Flags(op, c, ms.front) && Fits(op, req, ms.front)
    requires ms.value.Arr? ==> NameOf(ms.key) !in {"choices", "output", "content"}
    ensures Accounts(op, req, MemberTold(op, req, c, NameOf(ms.key), ms.value), ms)
  {
    hide NameOf, Member, Fits, Lists, Flags, ObserveOpen, AdmitAll, TakeAll, Objects;
    var place := Member(Root, NameOf(ms.key));
    RootMemberPlace(NameOf(ms.key));
    ContainerFlags(op, c, ms);
    ObserveSetsFlags(op, c, place, "", 'v');
    SameLists(op, req, c, ObserveOpen(op, c, place), ms);
  }

  /** Every member extends the account. */
  lemma MemberAccounts(op: Operation, req: Requirements, c: Contract, ms: Members)
    requires ms.AddMember? && Lists(op, req, c, ms.front) && Flags(op, c, ms.front) && Fits(op, req, ms.front)
    ensures Accounts(op, req, MemberTold(op, req, c, NameOf(ms.key), ms.value), ms)
  {
    hide NameOf, Fits, Lists, Flags, MemberTold;
    var key, v := NameOf(ms.key), ms.value;
    if IsLeaf(v) { LeafAccounts(op, req, c, ms); }
    else if v.Arr? && key in {"choices", "output", "content"} { ArrayAccounts(op, req, c, ms); }
    else { ContainerAccounts(op, req, c, ms); }
  }

  lemma ArrayAccounts(op: Operation, req: Requirements, c: Contract, ms: Members)
    requires ms.AddMember? && ms.value.Arr? && NameOf(ms.key) in {"choices", "output", "content"}
    requires Lists(op, req, c, ms.front) && Flags(op, c, ms.front) && Fits(op, req, ms.front)
    ensures Accounts(op, req, MemberTold(op, req, c, NameOf(ms.key), ms.value), ms)
  {
    hide NameOf, Member, ArrayGood, Fits, Lists, Flags, ObserveOpen, AdmitAll, TakeAll, AllObjects, ChoicesAllowed, Flagged, Objects;
    var key, v := NameOf(ms.key), ms.value;
    RootMemberPlace(key);
    if key == "choices" {
      ChoicesArray(op, v.items);
      ChoicesAccount(op, req, c, ms);
    } else if op != Chat && key == UnitKey(op) {
      UnitPlaces(op);
      UnitsArray(op, v.items);
      UnitsAccount(op, req, c, ms);
    } else {
      ArrayFlags(op, c, ms);
      FlaggedSetsFlags(c, Member(Root, key));
      SameLists(op, req, c, Flagged(c, Member(Root, key)), ms);
    }
  }

  lemma FlaggedSetsFlags(c: Contract, place: Place)
    ensures var d := Flagged(c, place); d == c.(output := d.output, content := d.content)
  {
  }

  lemma ChoicesArray(op: Operation, items: Items)
    ensures ArrayGood(op, "choices", items) <==> ChoicesAllowed(op, items)
  {
  }

  lemma UnitsArray(op: Operation, items: Items)
    requires op != Chat
    ensures ArrayGood(op, UnitKey(op), items) <==> AllObjects(items)
  {
  }

  /** The account of all members. */
  lemma {:induction false} RootAccounts(op: Operation, req: Requirements, ms: Members)
    ensures Accounts(op, req, RootTold(op, req, FRESH, ms), ms)
  {
    hide MemberTold, Fits, Lists, Flags, NameOf;
    match ms {
      case NoMembers => NothingTold(op, req);
      case AddMember(front, _, _, _, _, _, _) =>
        RootAccounts(op, req, front);
        if RootTold(op, req, FRESH, front).Advance? {
          MemberAccounts(op, req, RootTold(op, req, FRESH, front).next, ms);
        } else if Fits(op, req, ms) {
          FitsBefore(op, req, ms);
        }
    }
  }

  lemma NothingTold(op: Operation, req: Requirements)
    ensures Accounts(op, req, RootTold(op, req, FRESH, NoMembers), NoMembers)
  {
    assert NamedIds([]) == {};
    var none: seq<Members> := [];
    assert Indexes(none) == {};
  }

  lemma FitsBefore(op: Operation, req: Requirements, ms: Members)
    requires ms.AddMember? && Fits(op, req, ms)
    ensures Fits(op, req, ms.front)
  {
    hide NameOf, MemberGood, MemberChoices, MemberUnits, RootGood, ChoicesComplete, EachUnit, Recordable;
    RootGrows(op, ms);
    var choices, more := ChoicesOf(ms.front), MemberChoices(NameOf(ms.key), ms.value);
    ChoicesCompleteFront(op, req, choices, more);
    EachUnitAppend(op, req, UnitsOf(op, ms.front), MemberUnits(op, NameOf(ms.key), ms.value));
    var rest := AllCalls(more) + AllUnitCalls(op, MemberUnits(op, NameOf(ms.key), ms.value));
    assert CallsIn(op, ms) == CallsIn(op, ms.front) + rest;
    RecordablePrefix(CallsIn(op, ms.front), rest);
  }

  lemma ChoicesCompleteFront(op: Operation, req: Requirements, a: seq<Members>, b: seq<Members>)
    requires ChoicesComplete(op, req, a + b)
    ensures ChoicesComplete(op, req, a)
  {
    hide ChoiceComplete, IndexOf;
    assert forall i :: 0 <= i < |a| ==> (a + b)[i] == a[i];
  }
}
