/** The verdict on a buffered body is a predicate on its syntax tree, for each operation. */
module BodyVerdict {
  import opened GoText
  import opened JsonGrammar
  import opened JsonScanner
  import opened CompletionContract
  import opened ChatDocument
  import opened AnswerDocument
  import opened JsonReading
  import opened RootReading
  import opened RootAccount
  import opened Ranges
  import JsonBuilding
  import Machines

  // ---- The calls of an answer ------------------------------------------------------------------

  lemma {:induction false} NoForeignCalls(op: Operation, req: Requirements, items: Items)
    requires op != Chat && CallsComplete(op, req, items)
    ensures CallIds(items) == []
  {
    hide CallMembersGood, CallName, StringAt, AcceptsTool;
    if items.AddItem? {
      NoForeignCalls(op, req, items.before);
      if !IsLeaf(items.value) { NoForeignArguments(op, items.value.members); }
    }
  }

  lemma {:induction false} NoForeignArguments(op: Operation, ms: Members)
    requires op != Chat
    ensures !CallArguments(op, ms, false)
  {
    hide NameOf;
    if ms.AddMember? { NoForeignArguments(op, ms.front); }
  }

  lemma {:induction false} NoForeignMessageCalls(op: Operation, req: Requirements, ms: Members)
    requires op != Chat && MessageMembersGood(op, req, ms)
    ensures MessageCalls(ms) == []
  {
    hide NameOf, CallsComplete, CallIds, FunctionGood, StringAt, AcceptsTool;
    if ms.AddMember? {
      NoForeignMessageCalls(op, req, ms.front);
      if NameOf(ms.key) == "tool_calls" && ms.value.Arr? { NoForeignCalls(op, req, ms.value.items); }
    }
  }

  lemma {:induction false} NoForeignChoiceCalls(op: Operation, req: Requirements, ms: Members)
    requires op != Chat && ChoiceMembersGood(op, req, ms)
    ensures ChoiceCalls(ms) == []
  {
    hide NameOf, MessageMembersGood, HasText, MessageCalls, Count;
    if ms.AddMember? {
      NoForeignChoiceCalls(op, req, ms.front);
      if NameOf(ms.key) == "message" && ms.value.Obj? { NoForeignMessageCalls(op, req, ms.value.members); }
    }
  }

  /** Only a Chat answer has calls in its choices. */
  lemma {:induction false} NoForeign(op: Operation, req: Requirements, choices: seq<Members>)
    requires op != Chat && forall i :: 0 <= i < |choices| ==> ChoiceComplete(op, req, choices[i])
    ensures AllCalls(choices) == []
    decreases |choices|
  {
    hide ChoiceComplete, ChoiceCalls;
    if |choices| > 0 {
      var front := choices[..|choices| - 1];
      assert forall i :: 0 <= i < |front| ==> front[i] == choices[i];
      NoForeign(op, req, front);
      LastHasNone(op, req, choices[|choices| - 1]);
    }
  }

  lemma LastHasNone(op: Operation, req: Requirements, ms: Members)
    requires op != Chat && ChoiceComplete(op, req, ms)
    ensures ChoiceCalls(ms) == []
  {
    NoForeignChoiceCalls(op, req, ms);
  }

  lemma {:induction false} NoChatUnits(ms: Members)
    ensures UnitsOf(Chat, ms) == []
  {
    hide NameOf;
    if ms.AddMember? { NoChatUnits(ms.front); }
  }

  lemma {:induction false} ChatCalls(ms: Members)
    ensures CallsIn(Chat, ms) == AllCalls(ChoicesOf(ms))
  {
    hide NameOf, AllCalls, AllUnitCalls, UnitsOf, ChoicesOf;
    match ms {
      case NoMembers => NothingIn(Chat);
      case AddMember(front, _, key, _, _, value, _) =>
        ChatCalls(front);
        RootGrows(Chat, ms);
        AllCallsAppend(ChoicesOf(front), MemberChoices(NameOf(key), value));
        NoUnits(Chat);
    }
  }

  lemma NothingIn(op: Operation)
    ensures CallsIn(op, NoMembers) == AllCalls(ChoicesOf(NoMembers)) && CallsIn(op, NoMembers) == AllUnitCalls(op, UnitsOf(op, NoMembers))
  {
  }

  lemma {:induction false} UnitCallsOnly(op: Operation, req: Requirements, ms: Members)
    requires op != Chat && ChoicesComplete(op, req, ChoicesOf(ms))
    ensures CallsIn(op, ms) == AllUnitCalls(op, UnitsOf(op, ms))
  {
    hide NameOf, AllCalls, AllUnitCalls, UnitsOf, ChoicesOf, ChoicesComplete, MemberChoices, MemberUnits;
    match ms {
      case NoMembers => NothingIn(op);
      case AddMember(front, _, key, _, _, value, _) =>
        RootGrows(op, ms);
        var more := MemberChoices(NameOf(key), value);
        ChoicesCompleteFront(op, req, ChoicesOf(front), more);
        UnitCallsOnly(op, req, front);
        AllUnitCallsAppend(op, UnitsOf(op, front), MemberUnits(op, NameOf(key), value));
        NoneBehind(op, req, ChoicesOf(front), more);
    }
  }

  lemma NoneBehind(op: Operation, req: Requirements, a: seq<Members>, b: seq<Members>)
    requires op != Chat && ChoicesComplete(op, req, a + b)
    ensures AllCalls(b) == []
  {
    hide ChoiceComplete, IndexOf;
    assert forall i :: 0 <= i < |b| ==> (a + b)[|a| + i] == b[i];
    NoForeign(op, req, b);
  }

  // ---- The verdict on a document ------------------------------------------------------------------

  lemma ChatVerdict(req: Requirements, c: Contract, ms: Members)
    requires Fits(Chat, req, ms) ==> Lists(Chat, req, c, ms) && Flags(Chat, c, ms)
    ensures Fits(Chat, req, ms) && Satisfied(Chat, req, false, c) <==> ChatComplete(req, ms)
  {
    hide RootGood, ReportsError, ChoicesComplete, HasArray, Ends, StopReasonOf, CountsTokens, AllCalls, DistinctIds, FinishedAt, NamedIds, UnitComplete,
      Indexes, FinishedCount;
    NoChatUnits(ms);
    ChatCalls(ms);
    FinishedAll(ChoicesOf(ms));
  }

  lemma UnitsVerdict(op: Operation, req: Requirements, ms: Members)
    requires op != Chat
    ensures Fits(op, req, ms) && !ReportsError(op, ms) <==> UnitsComplete(op, req, ms)
  {
    hide RootGood, ReportsError, ChoicesComplete, AllUnitCalls, CallsIn, DistinctIds, UnitComplete;
    if ChoicesComplete(op, req, ChoicesOf(ms)) { UnitCallsOnly(op, req, ms); }
  }

  lemma ResponsesVerdict(req: Requirements, countTokens: bool, c: Contract, ms: Members)
    requires Fits(Responses, req, ms) ==> Lists(Responses, req, c, ms) && Flags(Responses, c, ms)
    ensures Fits(Responses, req, ms) && Satisfied(Responses, req, countTokens, c) <==> ResponsesComplete(req, ms)
  {
    hide Fits, ReportsError, HasArray, Ends, StopReasonOf, CountsTokens, AllUnitCalls, UnitsComplete, Admitted, Recorded;
    UnitsVerdict(Responses, req, ms);
  }

  lemma MessagesVerdict(req: Requirements, countTokens: bool, c: Contract, ms: Members)
    requires Fits(Messages, req, ms) ==> Lists(Messages, req, c, ms) && Flags(Messages, c, ms)
    ensures Fits(Messages, req, ms) && Satisfied(Messages, req, countTokens, c) <==> MessagesComplete(req, countTokens, ms)
  {
    hide Fits, ReportsError, HasArray, Ends, StopReasonOf, CountsTokens, AllUnitCalls, UnitsComplete, Admitted, Recorded;
    UnitsVerdict(Messages, req, ms);
  }

  /** The incremental checker decides exactly the predicate on the tree.  `countTokens` is
      only ever set for Messages. */
  lemma BodyIsComplete(op: Operation, req: Requirements, countTokens: bool, d: Document)
    requires Acceptable(d)
    ensures AcceptsBody(op, req, countTokens, DocumentText(d)) <==> AnswerComplete(op, req, countTokens, Spliced(d.root.members))
  {
    hide Satisfied, Fits, Lists, Flags, ChatComplete, ResponsesComplete, MessagesComplete, Spliced, RootTold, DocumentText, Trace, WellFormedDocument,
      WithinLimits, Depth;
    ReadDocument(d);
    ReadingTells(op, req, d);
    var ms := Spliced(d.root.members);
    RootAccounts(op, req, ms);
    var c := if RootTold(op, req, FRESH, ms).Advance? then RootTold(op, req, FRESH, ms).next else FRESH;
    match op {
      case Chat =>
        ChatVerdict(req, c, ms);
        ChatCounts(req, countTokens, c);
      case Responses => ResponsesVerdict(req, countTokens, c, ms);
      case Messages => MessagesVerdict(req, countTokens, c, ms);
    }
  }

  lemma ChatCounts(req: Requirements, countTokens: bool, c: Contract)
    ensures Satisfied(Chat, req, countTokens, c) == Satisfied(Chat, req, false, c)
  {
  }

  /** Exactly the texts of complete documents are accepted. */
  lemma AcceptedBody(op: Operation, req: Requirements, countTokens: bool, body: bytes)
    ensures AcceptsBody(op, req, countTokens, body)
            <==> exists d: Document ::
                   Acceptable(d) && DocumentText(d) == body && AnswerComplete(op, req, countTokens, Spliced(d.root.members))
  {
    hide AnswerComplete, WellFormedDocument, WithinLimits, Depth, DocumentText, Satisfied;
    if AcceptsBody(op, req, countTokens, body) {
      var d := JsonBuilding.AcceptedIsDocument(body);
      BodyIsComplete(op, req, countTokens, d);
    }
    forall d: Document | Acceptable(d) && DocumentText(d) == body && AnswerComplete(op, req, countTokens, Spliced(d.root.members))
      ensures AcceptsBody(op, req, countTokens, body)
    {
      BodyIsComplete(op, req, countTokens, d);
    }
  }

  /** Where no object hides under an empty or over-long key, the members are the root's own. */
  lemma PlainBody(op: Operation, req: Requirements, countTokens: bool, d: Document)
    requires Acceptable(d) && PlainRoot(d.root.members)
    ensures AcceptsBody(op, req, countTokens, DocumentText(d)) <==> AnswerComplete(op, req, countTokens, d.root.members)
  {
    SplicedPlain(d.root.members);
    hide AnswerComplete, AcceptsBody, Acceptable, PlainRoot, Spliced, DocumentText;
    BodyIsComplete(op, req, countTokens, d);
  }

  // ---- What an empty key hides ----------------------------------------------------------------------

  const ERROR_MEMBER: Members := AddMember(NoMembers, "", "error", "", "", Lit("true"), "")
  const REPORTED: Value := Obj(ERROR_MEMBER, "")

  /** The document with one more member: an error report under the key `key`. */
  function WithError(d: Document, key: bytes): Document
    requires d.root.Obj?
  {
    d.(root := Obj(AddMember(d.root.members, "", key, "", "", REPORTED, ""), ""))
  }

  lemma ErrorName()
    ensures NameOf("error") == "error" && StringBody("error")
  {
    PlainText("error");
  }

  lemma HiddenName(key: bytes)
    requires HiddenKey(key)
    ensures KeyName(key) == "" && !Tracked("")
  {
    hide KeyName, Listed, TRACKED;
    NonEmpty();
    NeverListed(TRACKED);
  }

  lemma NonEmpty()
    ensures forall i :: 0 <= i < |TRACKED| ==> TRACKED[i] != ""
  {
    hide Listed;
  }

  lemma {:induction false} NeverListed(names: seq<bytes>)
    requires forall i :: 0 <= i < |names| ==> names[i] != ""
    ensures !Listed("", names)
  {
    if |names| > 0 { NeverListed(names[1..]); }
  }

  lemma {:induction false} NamesAreTracked(ms: Members)
    ensures forall name :: name in TrackedNames(ms) ==> Tracked(name)
  {
    hide Tracked, KeyName;
    if ms.AddMember? { NamesAreTracked(ms.front); }
  }

  lemma ReportFits()
    ensures WellFormed(REPORTED) && WithinLimits(REPORTED) && Depth(REPORTED) == 1
  {
    ErrorName();
    hide KeyName, Tracked, NameOf, StringBody, Number;
    var ms := ERROR_MEMBER;
    assert WellFormedMembers(NoMembers) && MembersWithinLimits(NoMembers) && TrackedNames(NoMembers) == {};
    assert WellFormed(Lit("true")) && WithinLimits(Lit("true"));
    assert WellFormedMembers(ms) && MembersWithinLimits(ms);
    assert MembersDepth(NoMembers) == 0 && Depth(Lit("true")) == 0 && MembersDepth(ms) == 0;
  }

  lemma ErrorFits(d: Document, key: bytes)
    requires Acceptable(d) && StringBody(key) && HiddenKey(key)
    ensures Acceptable(WithError(d, key))
  {
    HiddenName(key);
    ReportFits();
    NamesAreTracked(d.root.members);
    hide KeyName, Tracked, HiddenKey, StringBody, REPORTED;
    var ms := AddMember(d.root.members, "", key, "", "", REPORTED, "");
    assert WellFormedMembers(ms) && MembersWithinLimits(ms);
    assert MembersDepth(ms) == Max(MembersDepth(d.root.members), 1);
  }

  /** A hidden key names nothing that is looked up in the root. */
  lemma HiddenUnseen(op: Operation, req: Requirements, countTokens: bool, ms: Members, key: bytes, v: Value)
    requires HiddenKey(key)
    ensures AnswerComplete(op, req, countTokens, AddMember(ms, "", key, "", "", v, "")) <==> AnswerComplete(op, req, countTokens, ms)
  {
    var more := AddMember(ms, "", key, "", "", v, "");
    HiddenNamesNothing(op, ms, key, v);
    hide ChoicesOf, UnitsOf, RootGood, ReportsError, HasArray, Ends, StopReasonOf, CountsTokens, ChoicesComplete, AllCalls, AllUnitCalls, DistinctIds,
      FinishedAt, UnitComplete, HiddenKey;
  }

  lemma HiddenNamesNothing(op: Operation, ms: Members, key: bytes, v: Value)
    requires HiddenKey(key)
    ensures var more := AddMember(ms, "", key, "", "", v, "");
      ChoicesOf(more) == ChoicesOf(ms) && UnitsOf(op, more) == UnitsOf(op, ms) && RootGood(op, more) == RootGood(op, ms)
      && ReportsError(op, more) == ReportsError(op, ms) && (forall name | name != "" :: HasArray(more, name) == HasArray(ms, name))
      && Ends(op, more) == Ends(op, ms) && StopReasonOf(op, more) == StopReasonOf(op, ms) && CountsTokens(more) == CountsTokens(ms)
  {
    hide NameOf, ChoicesAllowed, ItemsShort, AllObjects, Objects, Count, Shown;
    assert ChoicesOf(ms) + [] == ChoicesOf(ms) && UnitsOf(op, ms) + [] == UnitsOf(op, ms);
  }

  lemma ErrorSpliced(op: Operation, ms: Members, key: bytes)
    requires HiddenKey(key)
    ensures ReportsError(op, Spliced(AddMember(ms, "", key, "", "", REPORTED, "")))
  {
    ErrorName();
    hide NameOf;
    assert Spliced(NoMembers) == NoMembers && Spliced(ERROR_MEMBER) == ERROR_MEMBER;
    var front := Spliced(ms);
    assert Join(front, NoMembers) == front;
    assert Join(front, ERROR_MEMBER) == AddMember(front, "", "error", "", "", Lit("true"), "");
    assert Lit("true") != Lit("null") by { assert "true"[0] != "null"[0]; }
  }

  lemma ErrorsRefuse(op: Operation, req: Requirements, countTokens: bool, ms: Members)
    requires ReportsError(op, ms)
    ensures !AnswerComplete(op, req, countTokens, ms)
  {
    hide ReportsError;
  }

  /** That objects under hidden keys are read as the root matters for every document: with one
      more member, which the root's own names do not show, it is refused. */
  lemma EmptyKeysMatter(op: Operation, req: Requirements, countTokens: bool, d: Document, key: bytes)
    requires Acceptable(d) && StringBody(key) && HiddenKey(key)
    ensures var e := WithError(d, key);
      Acceptable(e) && !AcceptsBody(op, req, countTokens, DocumentText(e))
      && (AnswerComplete(op, req, countTokens, e.root.members) <==> AnswerComplete(op, req, countTokens, d.root.members))
  {
    ErrorFits(d, key);
    HiddenUnseen(op, req, countTokens, d.root.members, key, REPORTED);
    ErrorSpliced(op, d.root.members, key);
    hide AcceptsBody, Acceptable, AnswerComplete, HiddenKey, StringBody, DocumentText, ReportsError, Spliced;
    var e := WithError(d, key);
    ErrorsRefuse(op, req, countTokens, Spliced(e.root.members));
    BodyIsComplete(op, req, countTokens, e);
  }

  // ---- The indexes are 0 to n-1 -------------------------------------------------------------------

  lemma {:induction false} IndexesSize(choices: seq<Members>)
    requires IndexesDiffer(choices)
    ensures |Indexes(choices)| == |choices|
  {
    hide IndexOf;
    if |choices| > 0 {
      IndexesGrow(choices);
      IndexesSize(choices[..|choices| - 1]);
    }
  }

  lemma IndexNatural(ms: Members)
    ensures IndexOf(ms) >= 0
  {
    IndexAtNatural(ms);
  }

  lemma {:induction false} IndexAtNatural(ms: Members)
    ensures IndexAt(ms).Some? ==> IndexAt(ms).value >= 0
  {
    if ms.AddMember? { IndexAtNatural(ms.front); }
  }

  /** When n choices were asked for, a complete answer has exactly the indexes 0 to n-1. */
  lemma IndexesCovered(req: Requirements, root: Members)
    requires ChatComplete(req, root) && req.expectedChoices > 0
    ensures Indexes(ChoicesOf(root)) == Range(req.expectedChoices)
  {
    hide RootGood, ReportsError, AllCalls, DistinctIds, FinishedAt, ChoicesOf, ChoiceMembersGood, HasMessage, CallCount, IndexOf;
    var choices := ChoicesOf(root);
    forall x | x in Indexes(choices) ensures 0 <= x < req.expectedChoices {
      var i :| 0 <= i < |choices| && x == IndexOf(choices[i]);
      IndexNatural(choices[i]);
      assert ChoiceComplete(Chat, req, choices[i]);
    }
    IndexesSize(choices);
    Pigeonhole(Indexes(choices), req.expectedChoices);
  }
}
