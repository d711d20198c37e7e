/**
  The root of an answer to any operation: what reading it does to the checker, member by
  member, as a function of the tree.
 */
module RootReading {
  import opened GoText
  import opened JsonGrammar
  import opened JsonScanner
  import opened Places
  import opened CompletionContract
  import opened ChatDocument
  import opened AnswerDocument
  import opened JsonReading
  import opened ChatReading
  import opened ChatVerdict
  import opened ItemReading
  import Machines

  // ---- The choices ------------------------------------------------------------------------

  function AdmitAll(op: Operation, req: Requirements, c: Contract, choices: seq<Members>): Verdict {
    if |choices| == 0 then Machines.Advance(c, [])
    else
      match AdmitAll(op, req, c, choices[..|choices| - 1])
      case Reject => Machines.Reject
      case Advance(c1, _) => Admit(op, req, c1, choices[|choices| - 1])
  }

  lemma AdmitFrames(op: Operation, req: Requirements, c: Contract, ms: Members, frames: seq<ResultFrame>)
    ensures Admit(op, req, c.(frames := frames), ms) == WithFrames(Admit(op, req, c, ms), frames)
    ensures Admit(op, req, c, ms) == WithFrames(Admit(op, req, c, ms), c.frames)
  {
    hide ChoiceComplete, RecordAll, FinishedAt, IndexOf, ChoiceCalls;
    RecordAllFrames(c, ChoiceCalls(ms), frames);
    RecordAllFrames(c, ChoiceCalls(ms), c.frames);
  }

  /** Admitting choices depends on no frame and changes none. */
  lemma {:induction false} AdmitAllFrames(op: Operation, req: Requirements, c: Contract, choices: seq<Members>, frames: seq<ResultFrame>)
    ensures AdmitAll(op, req, c.(frames := frames), choices) == WithFrames(AdmitAll(op, req, c, choices), frames)
    ensures AdmitAll(op, req, c, choices) == WithFrames(AdmitAll(op, req, c, choices), c.frames)
  {
    hide Admit;
    if |choices| > 0 {
      var front, last := choices[..|choices| - 1], choices[|choices| - 1];
      AdmitAllFrames(op, req, c, front, frames);
      match AdmitAll(op, req, c, front) {
        case Reject =>
        case Advance(c1, _) => AdmitFrames(op, req, c1, last, frames);
      }
    }
  }

  /** A choice that is no object: refused, unless it is a leaf nobody asks about. */
  lemma SeeOtherChoice(op: Operation, req: Requirements, c: Contract, base: seq<ResultFrame>, t: ResultFrame, v: Value, path: string)
    requires On(c, base, t) && t.place == Choices && !v.Obj? && PlaceOf(path) == Choice && path != ""
    ensures See(op, req, c, Trace(v, path, "")) == Only(op != Chat && IsLeaf(v), Machines.Advance(c, []))
  {
    hide See, PlaceOf, AtLeaf, Open, Close;
    if IsLeaf(v) {
      SeeLeaf(op, req, c, v, path, "");
      ChoiceItemLeaf(op, c, base, t, LeafValue(v, path), LeafKind(v), LeafOverflow(v, path));
    } else if op == Chat {
      ChoiceArrayRefused(op, c);
      OpeningRejects(op, req, c, path, '[', ItemsTrace(v.items, path) + [Closed(path, '[')]);
      assert [Opened(path, '[')] + (ItemsTrace(v.items, path) + [Closed(path, '[')]) == Trace(v, path, "");
    } else {
      var g := NewFrame(Choice, '[');
      OpenQuiet(op, c, Choice, '[');
      var inside := With(c, c.frames, g);
      ItemPlace(path);
      var _ := SeeEmptyItems(op, req, inside, c.frames, g, path, v.items);
      Bracketed(op, req, c, inside, inside, path, '[', ItemsTrace(v.items, path));
      CloseChoiceFrame(op, req, inside, c.frames, g);
    }
  }

  lemma ChoiceArrayRefused(op: Operation, c: Contract)
    ensures op == Chat ==> Open(op, c, Choice, '[').Reject?
  {
  }

  lemma ChoiceItemLeaf(op: Operation, c: Contract, base: seq<ResultFrame>, t: ResultFrame, value: bytes, kind: char, overflow: bool)
    requires On(c, base, t) && t.place == Choices
    ensures AtLeaf(op, c, Choice, "", value, kind, overflow) == Only(op != Chat, Machines.Advance(c, []))
  {
    assert LeafFrame(op, t, Choice, "", value, kind) == t by { hide Count; }
    SameTop(c);
    hide LeafFrame, Count, ValidArguments;
  }

  /** The elements of `choices`. */
  lemma {:induction false} SeeChoiceItems(op: Operation, req: Requirements, c: Contract, base: seq<ResultFrame>, t: ResultFrame, path: string, items: Items)
    requires On(c, base, t) && t.place == Choices && PlaceOf(path) == Choices
    ensures See(op, req, c, ItemsTrace(items, path)) == Only(ChoicesAllowed(op, items), AdmitAll(op, req, c, Objects(items)))
    decreases items
  {
    hide See, PlaceOf, Admit, Trace, ItemsTrace;
    match items {
      case NoItems => NoTrace(op, req, c, path);
      case AddItem(before, _, value, _) =>
        SeeChoiceItems(op, req, c, base, t, path, before);
        var p := ItemPath(path);
        ItemsTraceGrows(items, path);
        SeeParts(op, req, c, ItemsTrace(before, path), Trace(value, p, ""));
        ItemPlace(path);
        assert Item(Choices) == Choice;
        AdmitAllFrames(op, req, c, Objects(before), c.frames);
        if value.Obj? { assert (Objects(before) + [value.members])[..|Objects(before)|] == Objects(before); }
        else { assert Objects(before) + [] == Objects(before); }
        if ChoicesAllowed(op, before) && AdmitAll(op, req, c, Objects(before)).Advance? {
          var c0 := AdmitAll(op, req, c, Objects(before)).next;
          if value.Obj? { SeeChoice(op, req, c0, value, p); } else { SeeOtherChoice(op, req, c0, base, t, value, p); }
        }
    }
  }

  lemma SeeChoices(op: Operation, req: Requirements, c: Contract, v: Value, path: string, key: string)
    requires |c.frames| > 0 && v.Arr? && PlaceOf(path) == Choices
    ensures See(op, req, c, Trace(v, path, key)) == Only(ChoicesAllowed(op, v.items), AdmitAll(op, req, c, Objects(v.items)))
  {
    hide See, PlaceOf, Open, Close, Admit, AdmitAll, ChoicesAllowed, ItemsTrace;
    var t := NewFrame(Choices, '[');
    OpenFunction(op, c, Choices, '[');
    var inside := c.(frames := c.frames + [t]);
    SeeChoiceItems(op, req, inside, c.frames, t, path, v.items);
    AdmitAllFrames(op, req, c, Objects(v.items), inside.frames);
    if ChoicesAllowed(op, v.items) && AdmitAll(op, req, c, Objects(v.items)).Advance? {
      var c2 := AdmitAll(op, req, inside, Objects(v.items)).next;
      Bracketed(op, req, c, inside, c2, path, '[', ItemsTrace(v.items, path));
      CloseToolCalls(op, req, c2, c.frames, t);
    } else {
      BracketRejects(op, req, c, inside, path, '[', ItemsTrace(v.items, path));
    }
  }

  // ---- What a member of the root does ----------------------------------------------------------

  function ArrayTold(op: Operation, req: Requirements, c: Contract, place: Place, items: Items): Verdict {
    match place
    case Choices => AdmitAll(op, req, c, Objects(items))
    case Output | Content =>
      if op != Chat && place == ArrayPlace(op) then TakeAll(op, req, Flagged(c, place), Objects(items)) else Machines.Advance(Flagged(c, place), [])
    case _ => Machines.Advance(ObserveOpen(op, c, place), [])
  }

  /** A member of the root, at its place. */
  function MemberTold(op: Operation, req: Requirements, c: Contract, key: string, v: Value): Verdict {
    var place := Member(Root, key);
    if IsLeaf(v) then Machines.Advance(CompletionContract.ObserveLeaf(op, c, place, LeafText(v), LeafKind(v)), [])
    else if v.Arr? then Only(ArrayGood(op, key, v.items), ArrayTold(op, req, c, place, v.items))
    else Machines.Advance(ObserveOpen(op, c, place), [])
  }

  function RootTold(op: Operation, req: Requirements, c: Contract, ms: Members): Verdict {
    match ms
    case NoMembers => Machines.Advance(c, [])
    case AddMember(front, _, key, _, _, value, _) =>
      match RootTold(op, req, c, front)
      case Reject => Machines.Reject
      case Advance(c1, _) => MemberTold(op, req, c1, NameOf(key), value)
  }

  lemma ObservedFrames(op: Operation, c: Contract, place: Place, value: bytes, kind: char, frames: seq<ResultFrame>)
    ensures CompletionContract.ObserveLeaf(op, c.(frames := frames), place, value, kind)
            == CompletionContract.ObserveLeaf(op, c, place, value, kind).(frames := frames)
    ensures ObserveOpen(op, c.(frames := frames), place) == ObserveOpen(op, c, place).(frames := frames)
  {
    hide CompletionContract.ObserveLeaf, ObserveOpen;
    LeafObservedFrames(op, c, place, value, kind, frames);
    OpenObservedFrames(op, c, place, frames);
  }

  lemma LeafObservedFrames(op: Operation, c: Contract, place: Place, value: bytes, kind: char, frames: seq<ResultFrame>)
    ensures CompletionContract.ObserveLeaf(op, c.(frames := frames), place, value, kind)
            == CompletionContract.ObserveLeaf(op, c, place, value, kind).(frames := frames)
  {
    hide Count;
  }

  lemma OpenObservedFrames(op: Operation, c: Contract, place: Place, frames: seq<ResultFrame>)
    ensures ObserveOpen(op, c.(frames := frames), place) == ObserveOpen(op, c, place).(frames := frames)
  {
  }

  lemma ArrayFrames(op: Operation, req: Requirements, c: Contract, place: Place, items: Items, frames: seq<ResultFrame>)
    ensures ArrayTold(op, req, c.(frames := frames), place, items) == WithFrames(ArrayTold(op, req, c, place, items), frames)
  {
    hide AdmitAll, TakeAll, ObserveOpen, CompletionContract.ObserveLeaf, Objects;
    AdmitAllFrames(op, req, c, Objects(items), frames);
    TakeAllFrames(op, req, Flagged(c, place), Objects(items), frames);
    ObservedFrames(op, c, place, "", 'v', frames);
  }

  lemma MemberFrames(op: Operation, req: Requirements, c: Contract, key: string, v: Value, frames: seq<ResultFrame>)
    ensures MemberTold(op, req, c.(frames := frames), key, v) == WithFrames(MemberTold(op, req, c, key, v), frames)
  {
    hide ArrayGood, ArrayTold, ObserveOpen, CompletionContract.ObserveLeaf, Member, LeafText, LeafKind;
    ObservedFrames(op, c, Member(Root, key), LeafText(v), LeafKind(v), frames);
    if v.Arr? { ArrayFrames(op, req, c, Member(Root, key), v.items, frames); }
  }

  lemma {:induction false} RootFrames(op: Operation, req: Requirements, c: Contract, ms: Members, frames: seq<ResultFrame>)
    ensures RootTold(op, req, c.(frames := frames), ms) == WithFrames(RootTold(op, req, c, ms), frames)
    ensures RootTold(op, req, c, ms) == WithFrames(RootTold(op, req, c, ms), c.frames)
  {
    hide MemberTold, NameOf;
    match ms {
      case NoMembers =>
      case AddMember(front, _, key, _, _, value, _) =>
        RootFrames(op, req, c, front, frames);
        match RootTold(op, req, c, front) {
          case Reject =>
          case Advance(c1, _) =>
            MemberFrames(op, req, c1, NameOf(key), value, frames);
            MemberFrames(op, req, c1, NameOf(key), value, c1.frames);
            assert c1.(frames := c1.frames) == c1;
        }
    }
  }

  /** Members written after others are told after them. */
  lemma {:induction false} JoinTold(op: Operation, req: Requirements, c: Contract, a: Members, b: Members)
    ensures RootTold(op, req, c, Join(a, b)) == match RootTold(op, req, c, a) { case Reject => Machines.Reject case Advance(c1, _) => RootTold(op, req, c1, b) }
  {
    hide MemberTold, NameOf;
    match b {
      case NoMembers => RootFrames(op, req, c, a, c.frames);
      case AddMember(front, _, _, _, _, _, _) => JoinTold(op, req, c, a, front);
    }
  }

  // ---- Reading a member of the root -------------------------------------------------------------

  /** Inside an object at the root's path, above the frames `base`. */
  predicate RootState(c: Contract, base: seq<ResultFrame>) {
    |c.frames| == |base| + 1 && c.frames == base + [Top(c)] && Top(c).place == Root
  }

  /** What is read is what is told, apart from what the frame of the root notes. */
  predicate SeesRoot(v: Verdict, base: seq<ResultFrame>, told: Verdict) {
    if told.Advance? then v.Advance? && RootState(v.next, base) && v.next == told.next.(frames := v.next.frames) else v.Reject?
  }

  lemma RootMemberPlace(key: string)
    ensures Member(Root, key) ==
      if key == "choices" then Choices else if key == "output" then Output else if key == "content" then Content
      else if key == "error" then Error else if key == "status" then Status else if key == "stop_reason" then StopReason
      else if key == "input_tokens" then InputTokens else Elsewhere
  {
  }

  lemma RootPlace()
    ensures PlaceOf("") == Root
  {
    RootIsEmpty();
    Recognised("", Root);
  }

  lemma RootAllows(op: Operation, f: ResultFrame, key: string, value: bytes, kind: char, overflow: bool)
    requires f.place == Root
    ensures !ForbiddenLeaf(op, f, Member(Root, key), key, value, kind, overflow)
  {
    RootMemberPlace(key);
    hide Member, ValidArguments, Count;
  }

  /** Only a status and a stop reason are read as text, and both are kept short. */
  lemma TextRead(op: Operation, c: Contract, key: string, v: Value)
    requires IsLeaf(v)
    ensures CompletionContract.ObserveLeaf(op, c, Member(Root, key), LeafValue(v, FieldPath("", key)), LeafKind(v))
            == CompletionContract.ObserveLeaf(op, c, Member(Root, key), LeafText(v), LeafKind(v))
  {
    RootMemberPlace(key);
    if key == "status" || key == "stop_reason" {
      ShortKey(key);
    } else if v.Str? {
      assert Count(LeafValue(v, FieldPath("", key)), 's').None? && Count(LeafText(v), 's').None?;
    }
    hide Member, Count, StringLimit;
  }

  lemma ShortKey(key: string)
    requires key == "status" || key == "stop_reason"
    ensures StringLimit(FieldPath("", key), false) == MAX_TOKEN
  {
    assert FieldPath("", key) == key && |key| <= 11;
    assert |".function.arguments"| == 19 && |"output[].arguments"| == 18 && |"choices[].message.function_call.arguments"| > 11;
  }

  lemma SeeRootLeaf(op: Operation, req: Requirements, c: Contract, base: seq<ResultFrame>, key: bytes, v: Value)
    requires RootState(c, base) && NameOf(key) != "" && IsLeaf(v)
    ensures SeesRoot(See(op, req, c, Trace(v, FieldPath("", NameOf(key)), NameOf(key))), base, MemberTold(op, req, c, NameOf(key), v))
  {
    var k := NameOf(key);
    var p := FieldPath("", k);
    RootPlace();
    hide See, PlaceOf, NameOf, Member, Trace, LeafValue, LeafText, LeafKind, LeafOverflow, LeafFrame, ForbiddenLeaf, CompletionContract.ObserveLeaf;
    SeeMemberLeaf(op, req, c, base, Top(c), "", key, v);
    RootAllows(op, Top(c), k, LeafValue(v, p), LeafKind(v), LeafOverflow(v, p));
    var f1 := LeafFrame(op, Top(c), Member(Root, k), k, LeafValue(v, p), LeafKind(v));
    LeafFrameKeeps(op, Top(c), Member(Root, k), k, LeafValue(v, p), LeafKind(v));
    assert WithTop(c, f1).frames == base + [f1];
    ObservedFrames(op, c, Member(Root, k), LeafValue(v, p), LeafKind(v), base + [f1]);
    TextRead(op, c, k, v);
  }

  /** An object or array at a place that is only told of being there. */
  lemma SeeObserved(op: Operation, req: Requirements, c: Contract, v: Value, path: string, key: string)
    requires |c.frames| > 0 && !IsLeaf(v) && PlaceOf(path) in {Error, Status, StopReason, InputTokens} && path != ""
    ensures See(op, req, c, Trace(v, path, key)) == Machines.Advance(ObserveOpen(op, c, PlaceOf(path)), [])
  {
    hide See, PlaceOf, Open, Close, ObserveOpen;
    var place := PlaceOf(path);
    var kind := if v.Obj? then '{' else '[';
    var g := NewFrame(place, kind);
    OpenObserved(op, c, place, kind);
    var told := ObserveOpen(op, c, place);
    var inside := told.(frames := c.frames + [g]);
    var inner := if v.Obj? then MembersTrace(v.members, path) else ItemsTrace(v.items, path);
    var g1;
    if v.Obj? {
      g1 := SeeHarmlessMembers(op, req, inside, c.frames, g, path, v.members);
    } else {
      g1 := SeeIgnoredItems(op, req, inside, c.frames, g, path, v.items);
    }
    var c2 := inside.(frames := c.frames + [g1]);
    Bracketed(op, req, c, inside, c2, path, kind, inner);
    CloseIgnored(op, req, c2, c.frames, g1);
    ObserveKeepsFrames(op, c, place);
  }

  lemma ObserveKeepsFrames(op: Operation, c: Contract, place: Place)
    ensures ObserveOpen(op, c, place).frames == c.frames
  {
  }

  lemma OpenObserved(op: Operation, c: Contract, place: Place, kind: char)
    requires |c.frames| > 0 && place in {Error, Status, StopReason, InputTokens}
    ensures Open(op, c, place, kind) == Machines.Advance(ObserveOpen(op, c, place).(frames := c.frames + [NewFrame(place, kind)]), [])
  {
    hide OpenParent, NewFrame, ObserveOpen, WithTop, Entered, CompletionContract.ObserveLeaf;
    EnteredQuietly(c, place, kind);
    ObservedFrames(op, c, place, "", 'v', c.frames + [NewFrame(place, kind)]);
  }

  lemma EnteredQuietly(c: Contract, place: Place, kind: char)
    requires |c.frames| > 0 && place in {Error, Status, StopReason, InputTokens}
    ensures Entered(c, place, kind) == c.(frames := c.frames + [NewFrame(place, kind)])
  {
    hide OpenParent, NewFrame, WithTop;
    OpenParentSame(Top(c), place, kind);
    SameTop(c);
  }

  /** The arrays the root holds. */
  lemma SeeRootArray(op: Operation, req: Requirements, c: Contract, v: Value, path: string, key: string)
    requires |c.frames| > 0 && v.Arr? && path != "" && PlaceOf(path) == Member(Root, key) && Member(Root, key) in {Choices, Output, Content}
    ensures See(op, req, c, Trace(v, path, key)) == Only(ArrayGood(op, key, v.items), ArrayTold(op, req, c, Member(Root, key), v.items))
  {
    RootMemberPlace(key);
    hide See, PlaceOf, Member, Trace, AdmitAll, TakeAll, ChoicesAllowed, AllObjects, ItemsShort;
    if key == "choices" {
      SeeChoices(op, req, c, v, path, key);
    } else if op != Chat && key == UnitKey(op) {
      SeeUnits(op, req, c, v, path, key);
    } else {
      SeeTolerated(op, req, c, v, path, key);
    }
  }

  lemma PlainlyTold(op: Operation, req: Requirements, c: Contract, key: string, v: Value)
    requires !IsLeaf(v) && !(v.Arr? && Member(Root, key) in {Choices, Output, Content})
    ensures MemberTold(op, req, c, key, v) == Machines.Advance(ObserveOpen(op, c, Member(Root, key)), [])
  {
    RootMemberPlace(key);
    hide Member, ObserveOpen;
  }

  lemma SeeRootContainer(op: Operation, req: Requirements, c: Contract, base: seq<ResultFrame>, key: bytes, v: Value)
    requires RootState(c, base) && NameOf(key) != "" && !IsLeaf(v)
    ensures See(op, req, c, Trace(v, FieldPath("", NameOf(key)), NameOf(key))) == MemberTold(op, req, c, NameOf(key), v)
  {
    var k := NameOf(key);
    var p := FieldPath("", k);
    RootPlace();
    BelowMember(Top(c), "", key);
    RootMemberPlace(k);
    hide See, PlaceOf, NameOf, Member, Trace, ArrayGood, ArrayTold, MemberTold, ObserveOpen, FieldPath;
    var place := Member(Root, k);
    if v.Arr? && place in {Choices, Output, Content} {
      SeeRootArray(op, req, c, v, p, k);
      ArrayIsTold(op, req, c, k, v);
    } else {
      PlainlyTold(op, req, c, k, v);
      if place in {Error, Status, StopReason, InputTokens} {
        SeeObserved(op, req, c, v, p, k);
      } else {
        NotObserved(op, c, place);
        if place == Elsewhere { SeeIgnored(op, req, c, v, p, k); } else { SeePlainObject(op, req, c, v, p, k); }
      }
    }
  }

  lemma NotObserved(op: Operation, c: Contract, place: Place)
    requires place !in {Error, Status, StopReason}
    ensures ObserveOpen(op, c, place) == c
  {
  }

  lemma ArrayIsTold(op: Operation, req: Requirements, c: Contract, key: string, v: Value)
    requires v.Arr?
    ensures MemberTold(op, req, c, key, v) == Only(ArrayGood(op, key, v.items), ArrayTold(op, req, c, Member(Root, key), v.items))
  {
  }

  // ---- The root and objects with its path -------------------------------------------------------

  /** What a member tells, when objects under hidden keys are read as if they were the root. */
  function SplicedTold(op: Operation, req: Requirements, c: Contract, key: bytes, v: Value): Verdict {
    if HiddenKey(key) && v.Obj? then RootTold(op, req, c, Spliced(v.members)) else MemberTold(op, req, c, NameOf(key), v)
  }

  lemma SplicedGrows(op: Operation, req: Requirements, c: Contract, ms: Members)
    requires ms.AddMember?
    ensures RootTold(op, req, c, Spliced(ms))
            == match RootTold(op, req, c, Spliced(ms.front)) { case Reject => Machines.Reject case Advance(c1, _) => SplicedTold(op, req, c1, ms.key, ms.value) }
  {
    hide MemberTold, NameOf;
    if HiddenKey(ms.key) && ms.value.Obj? { JoinTold(op, req, c, Spliced(ms.front), Spliced(ms.value.members)); }
  }

  lemma OpenRoot(op: Operation, c: Contract, kind: char)
    ensures Open(op, c, Root, kind) == Machines.Advance(c.(frames := c.frames + [NewFrame(Root, kind)]), [])
  {
    OpenQuiet(op, c, Root, kind);
  }

  lemma RootToldFrames(op: Operation, req: Requirements, c: Contract, d: Contract, ms: Members)
    requires d == c.(frames := d.frames)
    ensures RootTold(op, req, d, ms) == WithFrames(RootTold(op, req, c, ms), d.frames)
  {
    hide RootTold;
    RootFrames(op, req, c, ms, d.frames);
  }

  lemma MemberToldFrames(op: Operation, req: Requirements, c: Contract, d: Contract, key: bytes, v: Value)
    requires d == c.(frames := d.frames)
    ensures SplicedTold(op, req, d, key, v) == WithFrames(SplicedTold(op, req, c, key, v), d.frames)
  {
    hide RootTold, MemberTold, NameOf;
    if HiddenKey(key) && v.Obj? { RootFrames(op, req, c, Spliced(v.members), d.frames); }
    else { MemberFrames(op, req, c, NameOf(key), v, d.frames); }
  }

  /** An object at the root's path: the root itself, or one under a hidden key. */
  lemma {:induction false} SeeRootObject(op: Operation, req: Requirements, c: Contract, ms: Members, pad: bytes)
    ensures See(op, req, c, Trace(Obj(ms, pad), "", "")) == RootTold(op, req, c, Spliced(ms))
    decreases ms, 1
  {
    hide See, PlaceOf, Open, Close, RootTold, Spliced, MembersTrace, Judged;
    RootPlace();
    OpenRoot(op, c, '{');
    var inside := c.(frames := c.frames + [NewFrame(Root, '{')]);
    NewRoot(c);
    SeeRootMembers(op, req, inside, c.frames, ms);
    RootToldFrames(op, req, c, inside, Spliced(ms));
    RootFrames(op, req, c, Spliced(ms), c.frames);
    var v := See(op, req, inside, MembersTrace(ms, ""));
    assert Trace(Obj(ms, pad), "", "") == [Opened("", '{')] + MembersTrace(ms, "") + [Closed("", '{')];
    if v.Advance? {
      SeeSilent(op, req, inside, MembersTrace(ms, ""));
      Bracketed(op, req, c, inside, v.next, "", '{', MembersTrace(ms, ""));
      RootNotJudged(op);
      CloseIgnored(op, req, v.next, c.frames, Top(v.next));
    } else {
      BracketRejects(op, req, c, inside, "", '{', MembersTrace(ms, ""));
    }
  }

  lemma NewRoot(c: Contract)
    ensures RootState(c.(frames := c.frames + [NewFrame(Root, '{')]), c.frames)
  {
  }

  lemma RootNotJudged(op: Operation)
    ensures !Judged(op, Root)
  {
  }

  lemma {:induction false} SeeRootMembers(op: Operation, req: Requirements, c: Contract, base: seq<ResultFrame>, ms: Members)
    requires RootState(c, base)
    ensures SeesRoot(See(op, req, c, MembersTrace(ms, "")), base, RootTold(op, req, c, Spliced(ms)))
    decreases ms, 0
  {
    hide See, PlaceOf, NameOf, RootState, Trace, SplicedTold, Spliced;
    match ms {
      case NoMembers => NoRootMembers(op, req, c, base);
      case AddMember(front, _, key, _, _, value, _) =>
        hide RootTold;
        SeeRootMembers(op, req, c, base, front);
        SplicedGrows(op, req, c, ms);
        SeeParts(op, req, c, MembersTrace(front, ""), Trace(value, FieldPath("", NameOf(key)), NameOf(key)));
        var first := See(op, req, c, MembersTrace(front, ""));
        if first.Advance? {
          SeeAnyRootMember(op, req, first.next, base, key, value);
          MemberToldFrames(op, req, RootTold(op, req, c, Spliced(front)).next, first.next, key, value);
        }
    }
  }

  lemma NoRootMembers(op: Operation, req: Requirements, c: Contract, base: seq<ResultFrame>)
    requires RootState(c, base)
    ensures SeesRoot(See(op, req, c, MembersTrace(NoMembers, "")), base, RootTold(op, req, c, Spliced(NoMembers)))
  {
    hide See, RootState;
    SeeNone(op, req, c);
  }

  lemma {:induction false} SeeAnyRootMember(op: Operation, req: Requirements, c: Contract, base: seq<ResultFrame>, key: bytes, value: Value)
    requires RootState(c, base)
    ensures SeesRoot(See(op, req, c, Trace(value, FieldPath("", NameOf(key)), NameOf(key))), base, SplicedTold(op, req, c, key, value))
    decreases value
  {
    hide See, PlaceOf, KeyName, NameOf, Trace, MemberTold, RootTold, FieldPath;
    if NameOf(key) != "" {
      if IsLeaf(value) {
        SeeRootLeaf(op, req, c, base, key, value);
      } else {
        SeeRootContainer(op, req, c, base, key, value);
        MemberKeepsFrames(op, req, c, NameOf(key), value);
      }
    } else {
      NoPath();
      if value.Obj? {
        assert value == Obj(value.members, value.pad);
        SeeRootObject(op, req, c, value.members, value.pad);
        RootFrames(op, req, c, Spliced(value.members), c.frames);
        assert c.(frames := c.frames) == c;
      } else {
        SeeUnnamed(op, req, c, value);
        UnnamedTold(op, req, c, value);
      }
    }
  }

  lemma NoPath()
    ensures FieldPath("", "") == ""
  {
  }

  lemma MemberKeepsFrames(op: Operation, req: Requirements, c: Contract, key: string, v: Value)
    ensures MemberTold(op, req, c, key, v) == WithFrames(MemberTold(op, req, c, key, v), c.frames)
  {
    hide MemberTold;
    MemberFrames(op, req, c, key, v, c.frames);
    assert c.(frames := c.frames) == c;
  }

  lemma UnnamedTold(op: Operation, req: Requirements, c: Contract, v: Value)
    ensures MemberTold(op, req, c, "", v) == Machines.Advance(c, [])
  {
    RootMemberPlace("");
    hide Member, Count;
  }

  /** Other values under a hidden key. */
  lemma SeeUnnamed(op: Operation, req: Requirements, c: Contract, v: Value)
    requires |c.frames| > 0 && !v.Obj?
    ensures See(op, req, c, Trace(v, "", "")) == Machines.Advance(c, [])
  {
    hide See, PlaceOf, Open, Close, AtLeaf;
    RootPlace();
    if IsLeaf(v) {
      SeeLeaf(op, req, c, v, "", "");
      UnnamedLeaf(op, c, LeafValue(v, ""), LeafKind(v), LeafOverflow(v, ""));
    } else {
      OpenRoot(op, c, '[');
      var g := NewFrame(Root, '[');
      var inside := c.(frames := c.frames + [g]);
      ItemPlace("");
      assert Item(Root) == Elsewhere;
      var _ := SeeEmptyItems(op, req, inside, c.frames, g, "", v.items);
      Bracketed(op, req, c, inside, inside, "", '[', ItemsTrace(v.items, ""));
      CloseIgnored(op, req, inside, c.frames, g);
      assert c.(frames := c.frames) == c;
    }
  }

  lemma UnnamedLeaf(op: Operation, c: Contract, value: bytes, kind: char, overflow: bool)
    requires |c.frames| > 0
    ensures AtLeaf(op, c, Root, "", value, kind, overflow) == Machines.Advance(c, [])
  {
    assert LeafFrame(op, Top(c), Root, "", value, kind) == Top(c) by { hide Count; }
    SameTop(c);
    hide LeafFrame, Count, ValidArguments;
  }

  /** What reading a document does, from the beginning. */
  lemma ReadingTells(op: Operation, req: Requirements, d: Document)
    requires d.root.Obj?
    ensures Observe(op, req, FRESH, Trace(d.root, "", "")) == RootTold(op, req, FRESH, Spliced(d.root.members))
  {
    hide RootTold, Spliced, Trace;
    assert d.root == Obj(d.root.members, d.root.pad);
    SeeRootObject(op, req, FRESH, d.root.members, d.root.pad);
  }
}
