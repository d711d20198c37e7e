/**
  The outer half of the proof that module ChatReading begins: legacy calls, messages and
  choices.

  A message records its calls as they are read and passes their number on to its choice; a
  choice is refused, or counted once with its index, its calls and whether it finished.
  What a frame holds when it closes is what the lookups of module ChatDocument find in the
  members of its object, whatever their number and order.
 */
module ChatVerdict {
  import opened GoText
  import opened JsonGrammar
  import opened JsonScanner
  import opened Places
  import opened CompletionContract
  import opened ChatDocument
  import opened JsonReading
  import opened ChatReading
  import Machines

  // ---- Messages -------------------------------------------------------------------------

  /** A verdict whose frames are set only when a condition holds. */
  function Only(good: bool, v: Verdict): Verdict {
    if good then v else Machines.Reject
  }

  lemma CloseToolCalls(op: Operation, req: Requirements, c: Contract, base: seq<ResultFrame>, t: ResultFrame)
    requires On(c, base, t) && t.place in {ToolCalls, Choices, Output, Content, OutputContent, OutputItem, Block, Root} && !Judged(op, t.place)
    ensures Close(op, req, c) == Machines.Advance(c.(frames := base), [])
  {
    CloseIgnored(op, req, c, base, t);
  }

  /** The array under `tool_calls`, inside the frame of its message. */
  lemma SeeToolCalls(op: Operation, req: Requirements, c: Contract, base: seq<ResultFrame>, m: ResultFrame, v: Value, path: string, key: string)
    requires On(c, base, m) && m.place == Message && v.Arr? && PlaceOf(path) == ToolCalls
    ensures See(op, req, c, Trace(v, path, key))
            == Only(CallsComplete(op, req, v.items), WithFrames(RecordAll(c, CallIds(v.items)), base + [Calling(m, |CallIds(v.items)|)]))
  {
    hide See, PlaceOf, Open, Close, CallComplete, RecordTool;
    var t := NewFrame(ToolCalls, '[');
    var ids := CallIds(v.items);
    OpenFunction(op, c, ToolCalls, '[');
    var inside := c.(frames := c.frames + [t]);
    SeeCallItems(op, req, inside, base, m, t, path, v.items);
    RecordAllFrames(c, ids, inside.frames);
    if CallsComplete(op, req, v.items) && RecordAll(c, ids).Advance? {
      var m1 := Calling(m, |ids|);
      var c2 := RecordAll(c, ids).next.(frames := base + [m1] + [t]);
      Bracketed(op, req, c, inside, c2, path, '[', ItemsTrace(v.items, path));
      CloseToolCalls(op, req, c2, base + [m1], t);
    } else {
      BracketRejects(op, req, c, inside, path, '[', ItemsTrace(v.items, path));
    }
  }

  /** An object where an array is looked for. */
  lemma SeePlainObject(op: Operation, req: Requirements, c: Contract, v: Value, path: string, key: string)
    requires v.Obj? && |c.frames| > 0 && path != "" && PlaceOf(path) in {ToolCalls, Choices, Output, Content, OutputContent}
    ensures See(op, req, c, Trace(v, path, key)) == Machines.Advance(c, [])
  {
    hide See, PlaceOf, Open, Close;
    var place := PlaceOf(path);
    OpenPlain(op, c, place);
    var inside := c.(frames := c.frames + [NewFrame(place, '{')]);
    var f1 := SeeHarmlessMembers(op, req, inside, c.frames, NewFrame(place, '{'), path, v.members);
    Bracketed(op, req, c, inside, With(c, c.frames, f1), path, '{', MembersTrace(v.members, path));
    CloseToolCalls(op, req, With(c, c.frames, f1), c.frames, f1);
    assert c.(frames := c.frames) == c;
  }

  lemma OpenPlain(op: Operation, c: Contract, place: Place)
    requires |c.frames| > 0 && place in {ToolCalls, Choices, Output, Content, OutputContent}
    ensures Open(op, c, place, '{') == Machines.Advance(c.(frames := c.frames + [NewFrame(place, '{')]), [])
  {
    OpenParentSame(Top(c), place, '{');
    hide OpenParent, NewFrame;
    assert WithTop(c, Top(c)).frames == c.frames;
  }

  /** The object or array under `function_call`. */
  lemma SeeLegacy(op: Operation, req: Requirements, c: Contract, base: seq<ResultFrame>, m: ResultFrame, v: Value, path: string, key: string)
    requires On(c, base, m) && m.place == Message && !IsLeaf(v) && PlaceOf(path) == Legacy && path != ""
    ensures See(op, req, c, Trace(v, path, key))
            == Only(LegacyComplete(op, req, v), WithFrames(RecordAll(c, [""]), base + [Calling(m, 1)]))
  {
    hide See, PlaceOf, Open, Close, Noted, AcceptsTool, RecordTool, FunctionGood;
    var kind := if v.Obj? then '{' else '[';
    var inner := if v.Obj? then MembersTrace(v.members, path) else ItemsTrace(v.items, path);
    var new1 := NewFrame(Legacy, kind);
    OpenFunction(op, c, Legacy, kind);
    var inside := With(c, c.frames, new1);
    RecordAllOne(c, "");
    if v.Obj? && !FunctionGood(op, v.members) {
      SeeFunctionMembers(op, req, inside, c.frames, new1, path, v.members);
      BracketRejects(op, req, c, inside, path, kind, inner);
    } else {
      var g := new1;
      if v.Obj? {
        SeeFunctionMembers(op, req, inside, c.frames, new1, path, v.members);
        g := FunctionFrame(op, new1, v.members);
        FunctionFrameIs(op, new1, v.members);
      } else {
        ItemPlace(path);
        assert Item(Legacy) == Elsewhere;
        g := SeeEmptyItems(op, req, inside, c.frames, new1, path, v.items);
      }
      var c2 := With(c, c.frames, g);
      Bracketed(op, req, c, inside, c2, path, kind, inner);
      assert c2.frames == base + [m] + [] + [g];
      CloseCallIs(op, req, c2, base, m, [], g);
      assert base + [Calling(m, 1)] + [] == base + [Calling(m, 1)];
      RecordToolFrames(c, c2.frames, "");
    }
  }

  function MessageFrame(f: ResultFrame, ms: Members): ResultFrame {
    Noted(f, ms).(payload := f.payload || HasText(ms) || |MessageCalls(ms)| > 0, tools := f.tools + |MessageCalls(ms)|)
  }

  lemma MessageMemberPlace(key: string)
    ensures Member(Message, key) ==
      if key == "content" then MessageContent else if key == "refusal" then Refusal
      else if key == "tool_calls" then ToolCalls else if key == "function_call" then Legacy else Elsewhere
  {
  }

  lemma MessageLeaf(op: Operation, c: Contract, base: seq<ResultFrame>, f0: ResultFrame, f: ResultFrame, ms: Members, path: string)
    requires ms.AddMember? && IsLeaf(ms.value) && On(c, base, f) && f.place == Message && f == MessageFrame(f0, ms.front)
    ensures var p := FieldPath(path, NameOf(ms.key));
      AtLeaf(op, c, Member(f.place, NameOf(ms.key)), NameOf(ms.key), LeafValue(ms.value, p), LeafKind(ms.value), LeafOverflow(ms.value, p))
      == Machines.Advance(With(c, base, MessageFrame(f0, ms)), [])
  {
    var p := FieldPath(path, NameOf(ms.key));
    NotedLeaf(f0, ms, path);
    MessageFrameLeaf(op, f0, ms, LeafValue(ms.value, p));
    MessageLeafAt(op, c, f, NameOf(ms.key), LeafValue(ms.value, p), LeafKind(ms.value), LeafOverflow(ms.value, p));
    hide NameOf, LeafValue, LeafOverflow, LeafFrame, MessageFrame, AtLeaf;
    assert WithTop(c, MessageFrame(f0, ms)) == With(c, base, MessageFrame(f0, ms));
  }

  /** No leaf of a message is refused. */
  lemma MessageLeafAt(op: Operation, c: Contract, f: ResultFrame, key: string, value: bytes, kind: char, overflow: bool)
    requires |c.frames| > 0 && Top(c) == f && f.place == Message
    ensures AtLeaf(op, c, Member(Message, key), key, value, kind, overflow)
            == Machines.Advance(WithTop(c, LeafFrame(op, f, Member(Message, key), key, value, kind)), [])
  {
    hide LeafFrame, Member, ForbiddenLeaf;
    MessageAllows(op, f, key, value, kind, overflow);
    MessagePayload(op, key, value, kind);
    QuietLeaf(op, c, f, Member(Message, key), key, value, kind, overflow);
  }

  lemma MessageAllows(op: Operation, f: ResultFrame, key: string, value: bytes, kind: char, overflow: bool)
    requires f.place == Message
    ensures !ForbiddenLeaf(op, f, Member(Message, key), key, value, kind, overflow)
  {
    MessageMemberPlace(key);
    hide Member, ValidArguments, Count;
  }

  lemma MessageGainsLeaf(ms: Members)
    requires ms.AddMember? && IsLeaf(ms.value)
    ensures MessageCalls(ms) == MessageCalls(ms.front)
    ensures HasText(ms) <==> HasText(ms.front) || (NameOf(ms.key) in {"content", "refusal"} && ms.value.Str?)
  {
    hide NameOf;
    assert MessageCalls(ms.front) + [] == MessageCalls(ms.front);
  }

  lemma MessagePayload(op: Operation, key: string, value: bytes, kind: char)
    ensures IsPayload(Member(Message, key), value, kind) <==> kind == 's' && key in {"content", "refusal"}
    ensures !IsArguments(op, Member(Message, key)) && Member(Message, key) != FinishReason
    ensures Unobserved(op, Member(Message, key))
  {
    MessageMemberPlace(key);
    hide Member;
  }

  lemma MessageFrameLeaf(op: Operation, f0: ResultFrame, ms: Members, value: bytes)
    requires ms.AddMember? && IsLeaf(ms.value)
    requires Noted(f0, ms) == Note(Noted(f0, ms.front), NameOf(ms.key), value, LeafKind(ms.value))
    ensures LeafFrame(op, MessageFrame(f0, ms.front), Member(Message, NameOf(ms.key)), NameOf(ms.key), value, LeafKind(ms.value))
            == MessageFrame(f0, ms)
  {
    hide NameOf, Note, Noted, Member, MessageCalls, HasText, IsPayload, IsArguments;
    var key, f := NameOf(ms.key), MessageFrame(f0, ms.front);
    MessagePayload(op, key, value, LeafKind(ms.value));
    MessageGainsLeaf(ms);
    NoteKeepsRest(Noted(f0, ms.front), f.payload, f.tools, key, value, LeafKind(ms.value));
  }

  lemma NoteKeepsRest(f: ResultFrame, payload: bool, tools: nat, key: string, value: bytes, kind: char)
    ensures Note(f.(payload := payload, tools := tools), key, value, kind) == Note(f, key, value, kind).(payload := payload, tools := tools)
    ensures var g := Note(f, key, value, kind); g.arguments == f.arguments && g.finished == f.finished
  {
    hide Count;
  }

  lemma MessageGrows(f: ResultFrame, ms: Members, n: nat)
    requires ms.AddMember? && !IsLeaf(ms.value) && |MessageCalls(ms)| == |MessageCalls(ms.front)| + n
    ensures MessageFrame(f, ms) == Calling(MessageFrame(f, ms.front), n)
  {
    NotedContainer(f, ms);
    hide Noted, NameOf, MessageCalls;
  }

  lemma MessageGrowsBy(op: Operation, req: Requirements, ms: Members)
    requires ms.AddMember?
    ensures MessageMembersGood(op, req, ms) <==> MessageMembersGood(op, req, ms.front) && MessageMemberGood(op, req, ms.key, ms.value)
    ensures MessageCalls(ms) == MessageCalls(ms.front) + MessageMemberCalls(ms.key, ms.value)
  {
    hide NameOf, CallsComplete, LegacyComplete, CallIds;
  }

  lemma {:induction false} SeeMessageMembers(op: Operation, req: Requirements, c: Contract, base: seq<ResultFrame>, f: ResultFrame, path: string, ms: Members)
    requires On(c, base, f) && f.place == Message && PlaceOf(path) == Message && path != ""
    ensures See(op, req, c, MembersTrace(ms, path))
            == Only(MessageMembersGood(op, req, ms), WithFrames(RecordAll(c, MessageCalls(ms)), base + [MessageFrame(f, ms)]))
    decreases ms
  {
    match ms {
      case NoMembers =>
        hide Noted, RecordAll;
        NotedNone(f);
        SeeNone(op, req, c);
        RecordNone(c);
      case AddMember(front, _, key, _, _, value, _) =>
        NotedPlace(f, front);
        var f0 := MessageFrame(f, front);
        assert f0.place == Message;
        hide PlaceOf, KeyName, NameOf, MessageMembersGood, MessageMemberGood, MessageCalls, MessageMemberCalls, MessageFrame, Trace, RecordAll;
        SeeMessageMembers(op, req, c, base, f, path, front);
        MessageGrowsBy(op, req, ms);
        var p := FieldPath(path, NameOf(key));
        SeeParts(op, req, c, MembersTrace(front, path), Trace(value, p, NameOf(key)));
        var ids, more := MessageCalls(front), MessageMemberCalls(key, value);
        RecordAllAppend(c, ids, more);
        if MessageMembersGood(op, req, front) && RecordAll(c, ids).Advance? {
          var c1 := RecordAll(c, ids).next;
          var c0 := c1.(frames := base + [f0]);
          RecordAllFrames(c1, more, c0.frames);
          SeeMessageMember(op, req, c0, base, f, f0, path, ms);
          WithFramesTwice(RecordAll(c1, more), c0.frames, base + [MessageFrame(f, ms)]);
        }
    }
  }

  lemma RecordNone(c: Contract)
    ensures RecordAll(c, []) == Machines.Advance(c, []) && WithFrames(RecordAll(c, []), c.frames) == Machines.Advance(c, [])
  {
  }

  predicate MessageMemberGood(op: Operation, req: Requirements, key: bytes, value: Value) {
    (NameOf(key) == "tool_calls" && value.Arr? ==> CallsComplete(op, req, value.items))
    && (NameOf(key) == "function_call" && !IsLeaf(value) ==> LegacyComplete(op, req, value))
  }

  function MessageMemberCalls(key: bytes, value: Value): seq<string> {
    if NameOf(key) == "tool_calls" && value.Arr? then CallIds(value.items)
    else if NameOf(key) == "function_call" && !IsLeaf(value) then [""] else []
  }

  lemma SeeMessageMember(op: Operation, req: Requirements, c: Contract, base: seq<ResultFrame>, f0: ResultFrame, f: ResultFrame, path: string, ms: Members)
    requires ms.AddMember? && On(c, base, f) && f.place == Message && f == MessageFrame(f0, ms.front) && PlaceOf(path) == Message && path != ""
    ensures var p := FieldPath(path, NameOf(ms.key));
      See(op, req, c, Trace(ms.value, p, NameOf(ms.key)))
      == Only(MessageMemberGood(op, req, ms.key, ms.value),
              WithFrames(RecordAll(c, MessageMemberCalls(ms.key, ms.value)), base + [MessageFrame(f0, ms)]))
  {
    hide See, PlaceOf, AtLeaf, KeyName, NameOf, Member, Noted, CallsComplete, LegacyComplete, RecordTool, RecordAll, MessageFrame;
    var p, key, value := FieldPath(path, NameOf(ms.key)), NameOf(ms.key), ms.value;
    BelowMember(f, path, ms.key);
    MessageMemberPlace(key);
    RecordNone(c);
    if IsLeaf(value) {
      SeeMemberLeaf(op, req, c, base, f, path, ms.key, value);
      MessageLeaf(op, c, base, f0, f, ms, path);
    } else {
      MessageGrows(f0, ms, |MessageMemberCalls(ms.key, value)|);
      if key == "tool_calls" && value.Arr? {
        SeeToolCalls(op, req, c, base, f, value, p, key);
      } else if key == "function_call" {
        SeeLegacy(op, req, c, base, f, value, p, key);
      } else {
        if key == "tool_calls" { SeePlainObject(op, req, c, value, p, key); } else { SeeIgnored(op, req, c, value, p, key); }
        assert Calling(f, 0) == f;
      }
    }
  }

  // ---- Choices --------------------------------------------------------------------------------

  function Answered(f: ResultFrame, calls: nat): ResultFrame {
    f.(message := true, payload := true, tools := calls)
  }

  lemma OpenMessage(op: Operation, c: Contract, base: seq<ResultFrame>, f: ResultFrame, kind: char)
    requires On(c, base, f)
    ensures Open(op, c, Message, kind)
            == Machines.Advance(c.(frames := base + [f.(message := f.message || kind == '{')] + [NewFrame(Message, kind)]), [])
  {
    var parent := f.(message := f.message || kind == '{');
    assert OpenParent(f, Message, kind) == parent;
    hide OpenParent, NewFrame;
    assert WithTop(c, parent).frames == base + [parent];
    OpenFrames(op, c, base + [parent], kind);
  }

  lemma OpenFrames(op: Operation, c: Contract, parents: seq<ResultFrame>, kind: char)
    requires |c.frames| > 0 && parents == WithTop(c, OpenParent(Top(c), Message, kind)).frames
    ensures Open(op, c, Message, kind) == Machines.Advance(c.(frames := parents + [NewFrame(Message, kind)]), [])
  {
    hide OpenParent, NewFrame, WithTop;
  }

  lemma CloseMessage(op: Operation, req: Requirements, c: Contract, base: seq<ResultFrame>, f: ResultFrame, m: ResultFrame)
    requires c.frames == base + [f] + [m] && f.place == Choice && m.place == Message
    ensures Close(op, req, c)
            == Only(m.payload, Machines.Advance(c.(frames := base + [f.(tools := m.tools, payload := true)]), []))
  {
    var popped := base + [f];
    assert c.frames[..|c.frames| - 1] == popped;
    assert Nearest(popped, Choice) == |base|;
    assert popped[|base| := f.(tools := m.tools, payload := true)] == base + [f.(tools := m.tools, payload := true)];
  }

  /** The value under `message`, inside the frame of its choice. */
  lemma SeeMessage(op: Operation, req: Requirements, c: Contract, base: seq<ResultFrame>, f: ResultFrame, v: Value, path: string, key: string)
    requires On(c, base, f) && f.place == Choice && !IsLeaf(v) && PlaceOf(path) == Message && path != ""
    ensures See(op, req, c, Trace(v, path, key))
            == if MessageComplete(op, req, v)
               then WithFrames(RecordAll(c, MessageCalls(v.members)), base + [Answered(f, |MessageCalls(v.members)|)])
               else Machines.Reject
  {
    hide See, PlaceOf, MessageMembersGood, RecordAll, HasText, MessageCalls, Trace, Answered;
    if v.Arr? { SeeMessageArray(op, req, c, base, f, v, path, key); } else { SeeMessageObject(op, req, c, base, f, v, path, key); }
  }

  lemma SeeMessageArray(op: Operation, req: Requirements, c: Contract, base: seq<ResultFrame>, f: ResultFrame, v: Value, path: string, key: string)
    requires On(c, base, f) && f.place == Choice && v.Arr? && PlaceOf(path) == Message && path != ""
    ensures See(op, req, c, Trace(v, path, key)).Reject?
  {
    hide See, PlaceOf, Open, Close;
    var m := NewFrame(Message, '[');
    var f1 := f.(message := f.message || '[' == '{');
    var inside := c.(frames := base + [f1] + [m]);
    OpenMessage(op, c, base, f, '[');
    ItemPlace(path);
    assert Item(Message) == Elsewhere;
    var g := SeeEmptyItems(op, req, inside, base + [f1], m, path, v.items);
    Bracketed(op, req, c, inside, inside, path, '[', ItemsTrace(v.items, path));
    CloseMessage(op, req, inside, base, f1, m);
  }

  /** A message whose members were all accepted, before it closes. */
  function MessageInside(c: Contract, base: seq<ResultFrame>, f: ResultFrame, ms: Members): Verdict {
    WithFrames(RecordAll(c, MessageCalls(ms)), base + [f] + [MessageFrame(NewFrame(Message, '{'), ms)])
  }

  lemma InsideMessage(op: Operation, req: Requirements, c: Contract, base: seq<ResultFrame>, f: ResultFrame, ms: Members, path: string)
    requires PlaceOf(path) == Message && path != ""
    ensures See(op, req, c.(frames := base + [f] + [NewFrame(Message, '{')]), MembersTrace(ms, path))
            == Only(MessageMembersGood(op, req, ms), MessageInside(c, base, f, ms))
  {
    hide See, PlaceOf, MessageMembersGood, RecordAll, HasText, MessageCalls, MembersTrace, MessageFrame;
    var m := NewFrame(Message, '{');
    var inside := c.(frames := base + [f] + [m]);
    SeeMessageMembers(op, req, inside, base + [f], m, path, ms);
    RecordAllFrames(c, MessageCalls(ms), inside.frames);
    WithFramesTwice(RecordAll(c, MessageCalls(ms)), inside.frames, base + [f] + [MessageFrame(m, ms)]);
  }

  lemma MessageClosed(op: Operation, req: Requirements, c: Contract, base: seq<ResultFrame>, f: ResultFrame, ms: Members)
    requires f.place == Choice && f.message && MessageInside(c, base, f, ms).Advance?
    ensures Close(op, req, MessageInside(c, base, f, ms).next)
            == Only(HasText(ms) || |MessageCalls(ms)| > 0, WithFrames(RecordAll(c, MessageCalls(ms)), base + [Answered(f, |MessageCalls(ms)|)]))
  {
    hide RecordAll, HasText, MessageCalls, Close, MessageFrame;
    var m := MessageFrame(NewFrame(Message, '{'), ms);
    MessageFrameIs(NewFrame(Message, '{'), ms);
    CloseMessage(op, req, MessageInside(c, base, f, ms).next, base, f, m);
  }

  lemma SeeMessageObject(op: Operation, req: Requirements, c: Contract, base: seq<ResultFrame>, f: ResultFrame, v: Value, path: string, key: string)
    requires On(c, base, f) && f.place == Choice && v.Obj? && PlaceOf(path) == Message && path != ""
    ensures See(op, req, c, Trace(v, path, key))
            == Only(MessageComplete(op, req, v), WithFrames(RecordAll(c, MessageCalls(v.members)), base + [Answered(f, |MessageCalls(v.members)|)]))
  {
    hide See, PlaceOf, Open, Close, MessageMembersGood, RecordAll, HasText, MessageCalls, MembersTrace, NewFrame, MessageInside;
    var ms := v.members;
    var f1 := f.(message := true);
    var inside := c.(frames := base + [f1] + [NewFrame(Message, '{')]);
    OpenMessage(op, c, base, f, '{');
    InsideMessage(op, req, c, base, f1, ms, path);
    InsideAdvances(c, base, f1, ms);
    if MessageMembersGood(op, req, ms) && MessageInside(c, base, f1, ms).Advance? {
      Bracketed(op, req, c, inside, MessageInside(c, base, f1, ms).next, path, '{', MembersTrace(ms, path));
      MessageClosed(op, req, c, base, f1, ms);
    } else {
      BracketRejects(op, req, c, inside, path, '{', MembersTrace(ms, path));
    }
  }

  lemma InsideAdvances(c: Contract, base: seq<ResultFrame>, f: ResultFrame, ms: Members)
    ensures MessageInside(c, base, f, ms).Advance? <==> RecordAll(c, MessageCalls(ms)).Advance?
    ensures MessageInside(c, base, f, ms).Advance? ==> MessageInside(c, base, f, ms).events == []
  {
    hide RecordAll, MessageCalls;
  }

  lemma MessageFrameIs(f: ResultFrame, ms: Members)
    ensures var g := MessageFrame(f, ms);
      SameSpot(f, g) && g.payload == (f.payload || HasText(ms) || |MessageCalls(ms)| > 0) && g.tools == f.tools + |MessageCalls(ms)|
  {
  }

  function ChoiceFrame(f: ResultFrame, ms: Members): ResultFrame {
    Noted(f, ms).(finished := FinishedAt(ms, f.finished), message := f.message || HasMessage(ms),
                  payload := f.payload || HasMessage(ms), tools := CallCount(ms, f.tools))
  }

  lemma ChoiceMemberPlace(key: string)
    ensures Member(Choice, key) == if key == "finish_reason" then FinishReason else if key == "message" then Message else Elsewhere
  {
  }

  predicate IndexFits(key: bytes, value: Value) {
    NameOf(key) == "index" && IsLeaf(value) ==> value.Lit? && Count(value.token, LitKind(value.token)).Some?
  }

  lemma ChoiceLeaf(op: Operation, c: Contract, base: seq<ResultFrame>, f0: ResultFrame, f: ResultFrame, ms: Members, path: string)
    requires ms.AddMember? && IsLeaf(ms.value) && On(c, base, f) && f.place == Choice && f == ChoiceFrame(f0, ms.front)
    ensures var p := FieldPath(path, NameOf(ms.key));
      AtLeaf(op, c, Member(f.place, NameOf(ms.key)), NameOf(ms.key), LeafValue(ms.value, p), LeafKind(ms.value), LeafOverflow(ms.value, p))
      == Only(IndexFits(ms.key, ms.value), Machines.Advance(With(c, base, ChoiceFrame(f0, ms)), []))
  {
    var key := NameOf(ms.key);
    var p := FieldPath(path, key);
    NotedLeaf(f0, ms, path);
    if key in NOTED { ShownValue(ms.value, path, key); }
    hide NameOf, LeafValue, LeafOverflow;
    ChoiceLeafAt(op, c, base, f0, f, ms, LeafValue(ms.value, p), LeafOverflow(ms.value, p));
  }

  lemma ChoiceForbids(op: Operation, f: ResultFrame, key: string, value: bytes, kind: char, overflow: bool)
    requires f.place == Choice
    ensures ForbiddenLeaf(op, f, Member(Choice, key), key, value, kind, overflow) <==> key == "index" && Count(value, kind).None?
  {
    ChoiceMemberPlace(key);
    hide Member, ValidArguments, Count;
  }

  lemma IndexFitsMeans(ms: Members, value: bytes)
    requires ms.AddMember? && IsLeaf(ms.value)
    requires NameOf(ms.key) in NOTED ==> value == (if ms.value.Str? then Shown(ms.value.body) else ms.value.token)
    ensures IndexFits(ms.key, ms.value) <==> !(NameOf(ms.key) == "index" && Count(value, LeafKind(ms.value)).None?)
  {
    hide NameOf, Shown;
    if ms.value.Str? { assert Count(value, 's').None?; }
  }

  lemma ChoiceMemberQuiet(op: Operation, key: string)
    ensures Unobserved(op, Member(Choice, key))
  {
    ChoiceMemberPlace(key);
    hide Member;
  }

  lemma ChoiceLeafAt(op: Operation, c: Contract, base: seq<ResultFrame>, f0: ResultFrame, f: ResultFrame, ms: Members, value: bytes, overflow: bool)
    requires ms.AddMember? && IsLeaf(ms.value) && On(c, base, f) && f.place == Choice && f == ChoiceFrame(f0, ms.front)
    requires Noted(f0, ms) == Note(Noted(f0, ms.front), NameOf(ms.key), value, LeafKind(ms.value))
    requires NameOf(ms.key) in NOTED ==> value == (if ms.value.Str? then Shown(ms.value.body) else ms.value.token)
    ensures AtLeaf(op, c, Member(Choice, NameOf(ms.key)), NameOf(ms.key), value, LeafKind(ms.value), overflow)
            == Only(IndexFits(ms.key, ms.value), Machines.Advance(With(c, base, ChoiceFrame(f0, ms)), []))
  {
    hide NameOf, Count, ValidArguments, Noted, Note, Member, Shown, LeafFrame, ChoiceFrame, AtLeaf, ForbiddenLeaf, IndexFits;
    var key := NameOf(ms.key);
    ChoiceFrameLeaf(op, f0, ms, value);
    ChoiceForbids(op, f, key, value, LeafKind(ms.value), overflow);
    IndexFitsMeans(ms, value);
    ChoiceMemberQuiet(op, key);
    QuietLeaf(op, c, f, Member(Choice, key), key, value, LeafKind(ms.value), overflow);
    assert WithTop(c, ChoiceFrame(f0, ms)) == With(c, base, ChoiceFrame(f0, ms));
  }

  lemma ChoiceFrameLeaf(op: Operation, f0: ResultFrame, ms: Members, value: bytes)
    requires ms.AddMember? && IsLeaf(ms.value)
    requires Noted(f0, ms) == Note(Noted(f0, ms.front), NameOf(ms.key), value, LeafKind(ms.value))
    requires NameOf(ms.key) in NOTED ==> value == (if ms.value.Str? then Shown(ms.value.body) else ms.value.token)
    ensures LeafFrame(op, ChoiceFrame(f0, ms.front), Member(Choice, NameOf(ms.key)), NameOf(ms.key), value, LeafKind(ms.value))
            == ChoiceFrame(f0, ms)
  {
    var key := NameOf(ms.key);
    ChoiceMemberPlace(key);
    hide NameOf, Count, Shown, Member, Noted;
  }

  lemma ChoiceGrows(op: Operation, req: Requirements, ms: Members)
    requires ms.AddMember?
    ensures ChoiceMembersGood(op, req, ms) <==> ChoiceMembersGood(op, req, ms.front) && ChoiceMemberGood(op, req, ms.key, ms.value)
    ensures ChoiceCalls(ms) == ChoiceCalls(ms.front) + ChoiceMemberCalls(ms.key, ms.value)
  {
    hide NameOf, MessageComplete, MessageCalls, Count;
  }

  lemma {:induction false} SeeChoiceMembers(op: Operation, req: Requirements, c: Contract, base: seq<ResultFrame>, f: ResultFrame, path: string, ms: Members)
    requires On(c, base, f) && f.place == Choice && PlaceOf(path) == Choice && path != ""
    ensures See(op, req, c, MembersTrace(ms, path))
            == Only(ChoiceMembersGood(op, req, ms), WithFrames(RecordAll(c, ChoiceCalls(ms)), base + [ChoiceFrame(f, ms)]))
    decreases ms
  {
    match ms {
      case NoMembers =>
        hide Noted, RecordAll;
        NotedNone(f);
        SeeNone(op, req, c);
        RecordNone(c);
      case AddMember(front, _, key, _, _, value, _) =>
        NotedPlace(f, front);
        var f0 := ChoiceFrame(f, front);
        assert f0.place == Choice;
        hide PlaceOf, KeyName, NameOf, ChoiceMembersGood, ChoiceMemberGood, ChoiceCalls, ChoiceMemberCalls, ChoiceFrame, Trace, RecordAll;
        SeeChoiceMembers(op, req, c, base, f, path, front);
        ChoiceGrows(op, req, ms);
        var p := FieldPath(path, NameOf(key));
        SeeParts(op, req, c, MembersTrace(front, path), Trace(value, p, NameOf(key)));
        var ids, more := ChoiceCalls(front), ChoiceMemberCalls(key, value);
        RecordAllAppend(c, ids, more);
        if ChoiceMembersGood(op, req, front) && RecordAll(c, ids).Advance? {
          var c1 := RecordAll(c, ids).next;
          var c0 := c1.(frames := base + [f0]);
          RecordAllFrames(c1, more, c0.frames);
          SeeChoiceMember(op, req, c0, base, f, f0, path, ms);
          WithFramesTwice(RecordAll(c1, more), c0.frames, base + [ChoiceFrame(f, ms)]);
        }
    }
  }

  predicate ChoiceMemberGood(op: Operation, req: Requirements, key: bytes, value: Value) {
    IndexFits(key, value) && (NameOf(key) == "message" && !IsLeaf(value) ==> MessageComplete(op, req, value))
  }

  function ChoiceMemberCalls(key: bytes, value: Value): seq<string> {
    if NameOf(key) == "message" && value.Obj? then MessageCalls(value.members) else []
  }

  lemma SeeChoiceMember(op: Operation, req: Requirements, c: Contract, base: seq<ResultFrame>, f0: ResultFrame, f: ResultFrame, path: string, ms: Members)
    requires ms.AddMember? && On(c, base, f) && f.place == Choice && f == ChoiceFrame(f0, ms.front) && PlaceOf(path) == Choice && path != ""
    ensures var p := FieldPath(path, NameOf(ms.key));
      See(op, req, c, Trace(ms.value, p, NameOf(ms.key)))
      == Only(ChoiceMemberGood(op, req, ms.key, ms.value),
              WithFrames(RecordAll(c, ChoiceMemberCalls(ms.key, ms.value)), base + [ChoiceFrame(f0, ms)]))
  {
    hide See, PlaceOf, AtLeaf, KeyName, NameOf, Member, Noted, RecordAll, MessageMembersGood, MessageCalls, HasText, Count;
    var p, key, value := FieldPath(path, NameOf(ms.key)), NameOf(ms.key), ms.value;
    BelowMember(f, path, ms.key);
    ChoiceMemberPlace(key);
    RecordNone(c);
    if IsLeaf(value) {
      SeeMemberLeaf(op, req, c, base, f, path, ms.key, value);
      ChoiceLeaf(op, c, base, f0, f, ms, path);
    } else {
      NotedContainer(f0, ms);
      if key == "message" {
        SeeMessage(op, req, c, base, f, value, p, key);
      } else {
        SeeIgnored(op, req, c, value, p, key);
      }
    }
  }

  /** One choice: its calls are recorded, its index is taken, and it is counted. */
  function Admit(op: Operation, req: Requirements, c: Contract, ms: Members): Verdict {
    if !ChoiceComplete(op, req, ms) then Machines.Reject
    else
      match RecordAll(c, ChoiceCalls(ms))
      case Reject => Machines.Reject
      case Advance(c1, _) =>
        if req.expectedChoices > 0 && IndexOf(ms) in c1.seen then Machines.Reject
        else Machines.Advance(c1.(choices := c1.choices + 1,
                                  seen := if req.expectedChoices > 0 then c1.seen + {IndexOf(ms)} else c1.seen,
                                  finishedChoices := c1.finishedChoices + (if FinishedAt(ms, false) then 1 else 0)), [])
  }

  lemma ChoiceFrameIs(ms: Members)
    ensures var g := ChoiceFrame(NewFrame(Choice, '{'), ms);
      g.place == Choice && g.finished == FinishedAt(ms, false) && g.message == HasMessage(ms) && g.payload == HasMessage(ms)
      && g.tools == CallCount(ms, 0) && g.index == IndexOf(ms) && g.indexed == IndexAt(ms).Some? && g.finish == FinishReasonOf(ms)
  {
  }

  lemma CloseChoiceFrame(op: Operation, req: Requirements, c: Contract, base: seq<ResultFrame>, f: ResultFrame)
    requires On(c, base, f) && f.place == Choice
    ensures Close(op, req, c) == CloseChoice(req, c.(frames := base), f)
  {
    hide CloseChoice;
    assert c.frames[..|c.frames| - 1] == base;
  }

  lemma CloseChoiceIs(op: Operation, req: Requirements, c: Contract, base: seq<ResultFrame>, ms: Members)
    requires On(c, base, ChoiceFrame(NewFrame(Choice, '{'), ms)) && ChoiceMembersGood(op, req, ms)
    ensures Close(op, req, c)
            == if !ChoiceComplete(op, req, ms) || (req.expectedChoices > 0 && IndexOf(ms) in c.seen) then Machines.Reject
               else Machines.Advance(c.(frames := base,
                                        seen := if req.expectedChoices > 0 then c.seen + {IndexOf(ms)} else c.seen,
                                        finishedChoices := c.finishedChoices + (if FinishedAt(ms, false) then 1 else 0)), [])
  {
    hide Close, ChoiceFrame, ChoiceMembersGood, FinishedAt, CallCount, HasMessage, FinishReasonOf, IndexOf, IndexAt;
    ChoiceFrameIs(ms);
    CloseChoiceFrame(op, req, c, base, ChoiceFrame(NewFrame(Choice, '{'), ms));
  }

  lemma OpenChoice(op: Operation, c: Contract)
    requires |c.frames| > 0
    ensures Open(op, c, Choice, '{')
            == Machines.Advance(c.(frames := c.frames + [NewFrame(Choice, '{')], choices := c.choices + 1), [])
  {
    OpenParentSame(Top(c), Choice, '{');
    hide OpenParent, NewFrame;
    assert WithTop(c, Top(c)).frames == c.frames;
  }

  /** Recording calls changes only their count and their identities. */
  lemma {:induction false} RecordAllKeeps(c: Contract, ids: seq<string>, choices: nat)
    ensures RecordAll(c.(choices := choices), ids)
            == match RecordAll(c, ids) { case Reject => Machines.Reject case Advance(c1, _) => Machines.Advance(c1.(choices := choices), []) }
    ensures RecordAll(c, ids).Advance? ==>
              RecordAll(c, ids).next == c.(toolCount := RecordAll(c, ids).next.toolCount, toolIds := RecordAll(c, ids).next.toolIds)
              && RecordAll(c, ids).events == []
  {
    if |ids| > 0 { RecordAllKeeps(c, ids[..|ids| - 1], choices); }
  }

  /** The state before the end of a choice, when nothing was refused. */
  function BeforeClose(c: Contract, ms: Members): Verdict {
    match RecordAll(c, ChoiceCalls(ms))
    case Reject => Machines.Reject
    case Advance(c1, _) =>
      Machines.Advance(c1.(choices := c.choices + 1, frames := c.frames + [ChoiceFrame(NewFrame(Choice, '{'), ms)]), [])
  }

  lemma BeforeCloseIs(c: Contract, ms: Members)
    ensures WithFrames(RecordAll(c.(choices := c.choices + 1), ChoiceCalls(ms)), c.frames + [ChoiceFrame(NewFrame(Choice, '{'), ms)])
            == BeforeClose(c, ms)
  {
    hide RecordAll, ChoiceCalls, ChoiceFrame, NewFrame;
    RecordAllKeeps(c, ChoiceCalls(ms), c.choices + 1);
  }

  lemma InsideChoice(op: Operation, req: Requirements, c: Contract, ms: Members, path: string)
    requires PlaceOf(path) == Choice && path != ""
    ensures See(op, req, c.(frames := c.frames + [NewFrame(Choice, '{')], choices := c.choices + 1), MembersTrace(ms, path))
            == Only(ChoiceMembersGood(op, req, ms), BeforeClose(c, ms))
  {
    hide See, PlaceOf, ChoiceMembersGood, RecordAll, ChoiceCalls, ChoiceFrame, MembersTrace, BeforeClose, WithFrames;
    var f := NewFrame(Choice, '{');
    assert f.place == Choice;
    hide NewFrame;
    var counted := c.(choices := c.choices + 1);
    var inside := counted.(frames := c.frames + [f]);
    SeeChoiceMembers(op, req, inside, c.frames, f, path, ms);
    RecordAllFrames(counted, ChoiceCalls(ms), inside.frames);
    WithFramesTwice(RecordAll(counted, ChoiceCalls(ms)), inside.frames, c.frames + [ChoiceFrame(f, ms)]);
    BeforeCloseIs(c, ms);
  }

  lemma AfterClose(op: Operation, req: Requirements, c: Contract, ms: Members)
    requires ChoiceMembersGood(op, req, ms) && BeforeClose(c, ms).Advance?
    ensures Close(op, req, BeforeClose(c, ms).next) == Admit(op, req, c, ms)
  {
    hide Close, Noted, ChoiceComplete, ChoiceMembersGood, RecordAll, ChoiceCalls, FinishedAt, ChoiceFrame, IndexOf, NewFrame;
    RecordAllKeeps(c, ChoiceCalls(ms), c.choices);
    CloseChoiceIs(op, req, BeforeClose(c, ms).next, c.frames, ms);
  }

  lemma SeeChoice(op: Operation, req: Requirements, c: Contract, v: Value, path: string)
    requires |c.frames| > 0 && v.Obj? && PlaceOf(path) == Choice && path != ""
    ensures See(op, req, c, Trace(v, path, "")) == Admit(op, req, c, v.members)
  {
    var ms := v.members;
    OpenChoice(op, c);
    InsideChoice(op, req, c, ms, path);
    CompleteIsGood(op, req, ms);
    hide PlaceOf, Open, Close, ChoiceComplete, ChoiceMembersGood, NewFrame, RecordAll;
    var inside := c.(frames := c.frames + [NewFrame(Choice, '{')], choices := c.choices + 1);
    if ChoiceMembersGood(op, req, ms) && BeforeClose(c, ms).Advance? {
      AfterClose(op, req, c, ms);
      hide BeforeClose;
      Bracketed(op, req, c, inside, BeforeClose(c, ms).next, path, '{', MembersTrace(ms, path));
    } else {
      BracketRejects(op, req, c, inside, path, '{', MembersTrace(ms, path));
    }
  }

  lemma CompleteIsGood(op: Operation, req: Requirements, ms: Members)
    ensures ChoiceComplete(op, req, ms) ==> ChoiceMembersGood(op, req, ms)
  {
  }
}
