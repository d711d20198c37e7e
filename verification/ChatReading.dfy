/**
  The checker's verdict on a buffered Chat body is the tree predicate `ChatComplete`; this
  module is the inner half of the proof.

  The proof follows the tree from the inside out: values the contract does not look at
  leave it unchanged, and each kind of frame ends up holding what the lookups of module
  ChatDocument say.  Here are the values without meaning, the functions and the tool calls;
  modules ChatVerdict and RootReading go on from there.
 */
module ChatReading {
  import opened GoText
  import opened JsonGrammar
  import opened JsonScanner
  import opened Places
  import opened CompletionContract
  import opened ChatDocument
  import opened JsonReading
  import Machines

  // ---- Observing in parts -------------------------------------------------------------

  function See(op: Operation, req: Requirements, c: Contract, events: seq<Event>): Verdict {
    Observe(op, req, c, events)
  }

  /** Continue a verdict with more events. */
  function SeeMore(op: Operation, req: Requirements, v: Verdict, events: seq<Event>): Verdict {
    if v.Reject? then v else See(op, req, v.next, events)
  }

  lemma ApplySilent(op: Operation, req: Requirements, c: Contract, e: Event)
    ensures Apply(op, req, c, e).Advance? ==> Apply(op, req, c, e).events == []
  {
    hide PlaceOf;
  }

  lemma {:induction false} SeeSilent(op: Operation, req: Requirements, c: Contract, events: seq<Event>)
    ensures See(op, req, c, events).Advance? ==> See(op, req, c, events).events == []
    decreases |events|
  {
    if |events| > 0 {
      hide Apply;
      SeeSilent(op, req, c, events[..|events| - 1]);
      var r := See(op, req, c, events[..|events| - 1]);
      if r.Advance? {
        ApplySilent(op, req, r.next, events[|events| - 1]);
        Machines.PrefixedNone(Apply(op, req, r.next, events[|events| - 1]));
      }
    }
  }

  lemma SeeParts(op: Operation, req: Requirements, c: Contract, a: seq<Event>, b: seq<Event>)
    ensures See(op, req, c, a + b) == SeeMore(op, req, See(op, req, c, a), b)
  {
    hide Apply;
    Machines.RunAppend(Applier(op, req), c, a, b);
    SeeSilent(op, req, c, a);
    if See(op, req, c, a).Advance? {
      var r := See(op, req, See(op, req, c, a).next, b);
      if r.Advance? { assert [] + r.events == r.events; }
    }
  }

  lemma SeeOne(op: Operation, req: Requirements, c: Contract, e: Event)
    ensures See(op, req, c, [e]) == Apply(op, req, c, e)
  {
    hide Apply;
    Machines.RunOne(Applier(op, req), c, e);
  }

  lemma SeeNone(op: Operation, req: Requirements, c: Contract)
    ensures See(op, req, c, []) == Machines.Advance(c, [])
  {
    hide Apply;
  }

  // ---- Places in an answer --------------------------------------------------------

  /** No container at these places matters to an answer, nor anything in it. */
  predicate Ignored(op: Operation, p: Place) {
    p in {Elsewhere, FinishReason, MessageContent, Refusal, OutputEncrypted, OutputText, OutputRefusal, BlockText, BlockThinking,
          BlockData, InputTokens}
    || (op != Chat && p in {Places.FunctionArguments, LegacyArguments})
    || (op != Responses && p in {OutputArguments, OutputContent, OutputPart, Status})
    || (op != Messages && p == StopReason)
  }

  /** Objects whose leaf members are neither identities nor indexes. */
  predicate Harmless(p: Place) {
    !IsIdentityFrame(p) && p != Choice && p != Root && p != Message
  }

  lemma HarmlessMember(p: Place, key: string)
    requires Harmless(p)
    ensures Member(p, key) in {Elsewhere, OutputText, OutputRefusal}
  {
  }

  lemma IgnoredItem(op: Operation, p: Place)
    requires Ignored(op, p)
    ensures Harmless(p) && Ignored(op, Item(p))
  {
  }

  /** The path of a member or item of a container. */
  lemma BelowMember(f: ResultFrame, path: string, key: bytes)
    requires PlaceOf(path) == f.place && (path != "" || NameOf(key) != "")
    ensures PlaceOf(FieldPath(path, NameOf(key))) == Member(f.place, NameOf(key)) && FieldPath(path, NameOf(key)) != ""
  {
    hide PlaceOf, Member, KeyName;
    StoredIsStorable(KeyName(key));
    MemberPlace(path, NameOf(key));
  }

  // ---- Leaves -------------------------------------------------------------------------------

  function LeafKind(v: Value): char {
    if v.Str? then 's' else if v.Lit? then LitKind(v.token) else 'v'
  }

  function LeafOverflow(v: Value, path: string): bool {
    v.Str? && |v.body| > StringLimit(path, false)
  }

  function LeafValue(v: Value, path: string): bytes {
    if v.Str? then ObservedString(v.body, LeafOverflow(v, path)) else if v.Lit? then v.token else ""
  }

  lemma SeeLeaf(op: Operation, req: Requirements, c: Contract, v: Value, path: string, key: string)
    requires IsLeaf(v)
    ensures See(op, req, c, Trace(v, path, key))
            == AtLeaf(op, c, PlaceOf(path), key, LeafValue(v, path), LeafKind(v), LeafOverflow(v, path))
  {
    hide See, AtLeaf, PlaceOf, StringLimit;
    SeeOne(op, req, c, Leaf(path, key, LeafValue(v, path), LeafKind(v), LeafOverflow(v, path)));
    assert Trace(v, path, key) == [Leaf(path, key, LeafValue(v, path), LeafKind(v), LeafOverflow(v, path))];
  }

  /** Inside `base + [f]`. */
  predicate On(c: Contract, base: seq<ResultFrame>, f: ResultFrame) {
    c.frames == base + [f]
  }

  function With(c: Contract, base: seq<ResultFrame>, f: ResultFrame): Contract {
    c.(frames := base + [f])
  }

  lemma SeeMemberLeaf(op: Operation, req: Requirements, c: Contract, base: seq<ResultFrame>, f: ResultFrame, path: string, key: bytes, v: Value)
    requires On(c, base, f) && IsLeaf(v) && PlaceOf(path) == f.place && (path != "" || NameOf(key) != "")
    ensures var p := FieldPath(path, NameOf(key));
      See(op, req, c, Trace(v, p, NameOf(key)))
      == AtLeaf(op, c, Member(f.place, NameOf(key)), NameOf(key), LeafValue(v, p), LeafKind(v), LeafOverflow(v, p))
  {
    hide See, AtLeaf, PlaceOf, Member, StringLimit, KeyName;
    BelowMember(f, path, key);
    SeeLeaf(op, req, c, v, FieldPath(path, NameOf(key)), NameOf(key));
  }

  // ---- Values that do not matter ----------------------------------------------------------------

  /** A frame after ignored values: only what was noted by key may differ. */
  predicate SameSpot(a: ResultFrame, b: ResultFrame) {
    a.place == b.place && a.kind == b.kind
  }

  /** Places whose opening only pushes a frame. */
  predicate QuietOpening(op: Operation, place: Place, kind: char) {
    place != Message && place != BlockInput && (Unobserved(op, place) || place == InputTokens) && !ForbiddenContainer(op, place, kind)
    && (if kind == '[' then place != Output && place != Content else place != Choice)
  }

  /** Places that are not looked at from the root. */
  predicate Unobserved(op: Operation, place: Place) {
    place != Error && place != InputTokens && !(op == Responses && place == Status) && !(op == Messages && place == StopReason)
  }

  lemma OpenQuiet(op: Operation, c: Contract, place: Place, kind: char)
    requires QuietOpening(op, place, kind)
    ensures Open(op, c, place, kind) == Machines.Advance(c.(frames := c.frames + [NewFrame(place, kind)]), [])
  {
    QuietObserved(op, c.(frames := c.frames + [NewFrame(place, kind)]), place);
    hide NewFrame, ForbiddenContainer, ObserveOpen;
    if |c.frames| > 0 {
      OpenParentSame(Top(c), place, kind);
      SameTop(c);
    } else {
      assert [] + [NewFrame(place, kind)] == c.frames + [NewFrame(place, kind)];
    }
  }

  lemma SameTop(c: Contract)
    requires |c.frames| > 0
    ensures WithTop(c, Top(c)).frames == c.frames && WithTop(c, Top(c)) == c
  {
    assert c.frames[..|c.frames| - 1] + [Top(c)] == c.frames;
  }

  lemma QuietObserved(op: Operation, c: Contract, place: Place)
    requires Unobserved(op, place) || place == InputTokens
    ensures ObserveOpen(op, c, place) == c
  {
  }

  lemma OpenIgnored(op: Operation, c: Contract, place: Place, kind: char)
    requires Ignored(op, place)
    ensures Open(op, c, place, kind) == Machines.Advance(c.(frames := c.frames + [NewFrame(place, kind)]), [])
  {
    OpenQuiet(op, c, place, kind);
  }

  lemma OpenParentSame(f: ResultFrame, place: Place, kind: char)
    requires place != Message && place != BlockInput
    ensures OpenParent(f, place, kind) == f
  {
  }

  /** Frames whose end says something. */
  predicate Judged(op: Operation, place: Place) {
    place in {Function, ToolCall, Legacy, Message, Choice} || (op == Responses && place in {OutputPart, OutputItem})
    || (op == Messages && place == Block)
  }

  lemma CloseIgnored(op: Operation, req: Requirements, c: Contract, base: seq<ResultFrame>, f: ResultFrame)
    requires On(c, base, f) && !Judged(op, f.place)
    ensures Close(op, req, c) == Machines.Advance(c.(frames := base), [])
  {
    assert c.frames[..|c.frames| - 1] == base;
  }

  lemma LeafIgnored(op: Operation, c: Contract, base: seq<ResultFrame>, f: ResultFrame, place: Place, key: string, value: bytes, kind: char, overflow: bool)
      returns (f1: ResultFrame)
    requires On(c, base, f) && Harmless(f.place) && Ignored(op, place) && place != InputTokens
    ensures AtLeaf(op, c, place, key, value, kind, overflow) == Machines.Advance(With(c, base, f1), []) && SameSpot(f, f1)
  {
    f1 := LeafFrame(op, f, place, key, value, kind);
    LeafFrameKeeps(op, f, place, key, value, kind);
    hide LeafFrame, Count, ValidArguments;
    assert WithTop(c, f1) == With(c, base, f1);
  }

  lemma LeafFrameKeeps(op: Operation, f: ResultFrame, place: Place, key: string, value: bytes, kind: char)
    ensures SameSpot(f, LeafFrame(op, f, place, key, value, kind))
  {
    hide Count;
  }

  lemma {:induction false} SeeIgnored(op: Operation, req: Requirements, c: Contract, v: Value, path: string, key: string)
    requires !IsLeaf(v) && Ignored(op, PlaceOf(path)) && path != ""
    ensures See(op, req, c, Trace(v, path, key)) == Machines.Advance(c, [])
    decreases v, 1
  {
    hide See, PlaceOf, Open, Close;
    var place := PlaceOf(path);
    var kind := if v.Obj? then '{' else '[';
    IgnoredItem(op, place);
    OpenIgnored(op, c, place, kind);
    var inside := With(c, c.frames, NewFrame(place, kind));
    var f1;
    if v.Obj? {
      f1 := SeeHarmlessMembers(op, req, inside, c.frames, NewFrame(place, kind), path, v.members);
    } else {
      f1 := SeeIgnoredItems(op, req, inside, c.frames, NewFrame(place, kind), path, v.items);
    }
    CloseIgnored(op, req, With(c, c.frames, f1), c.frames, f1);
    var inner := if v.Obj? then MembersTrace(v.members, path) else ItemsTrace(v.items, path);
    Bracketed(op, req, c, inside, With(c, c.frames, f1), path, kind, inner);
    assert c.(frames := c.frames) == c;
  }

  /** A container is its opening, what is inside, and its end. */
  lemma Bracketed(op: Operation, req: Requirements, c: Contract, c1: Contract, c2: Contract, path: string, kind: char, inner: seq<Event>)
    requires Open(op, c, PlaceOf(path), kind) == Machines.Advance(c1, [])
    requires See(op, req, c1, inner) == Machines.Advance(c2, [])
    ensures See(op, req, c, [Opened(path, kind)] + inner + [Closed(path, kind)]) == Close(op, req, c2)
  {
    hide See, PlaceOf, Open, Close;
    SeeOne(op, req, c, Opened(path, kind));
    SeeParts(op, req, c, [Opened(path, kind)], inner);
    SeeParts(op, req, c, [Opened(path, kind)] + inner, [Closed(path, kind)]);
    SeeOne(op, req, c2, Closed(path, kind));
  }

  lemma {:induction false} SeeHarmlessMembers(op: Operation, req: Requirements, c: Contract, base: seq<ResultFrame>, f: ResultFrame, path: string, ms: Members)
      returns (f1: ResultFrame)
    requires On(c, base, f) && Harmless(f.place) && PlaceOf(path) == f.place && path != ""
    ensures See(op, req, c, MembersTrace(ms, path)) == Machines.Advance(With(c, base, f1), []) && SameSpot(f, f1)
    decreases ms, 0
  {
    hide See, PlaceOf, AtLeaf, KeyName, Member;
    match ms {
      case NoMembers =>
        f1 := f;
        SeeNone(op, req, c);
      case AddMember(front, _, key, _, _, value, _) =>
        var f0 := SeeHarmlessMembers(op, req, c, base, f, path, front);
        var c0 := With(c, base, f0);
        var p := FieldPath(path, NameOf(key));
        SeeParts(op, req, c, MembersTrace(front, path), Trace(value, p, NameOf(key)));
        HarmlessMember(f.place, NameOf(key));
        BelowMember(f0, path, key);
        if IsLeaf(value) {
          SeeMemberLeaf(op, req, c0, base, f0, path, key, value);
          f1 := LeafIgnored(op, c0, base, f0, Member(f.place, NameOf(key)), NameOf(key), LeafValue(value, p), LeafKind(value), LeafOverflow(value, p));
        } else {
          SeeIgnored(op, req, c0, value, p, NameOf(key));
          f1 := f0;
        }
    }
  }

  lemma {:induction false} SeeIgnoredItems(op: Operation, req: Requirements, c: Contract, base: seq<ResultFrame>, f: ResultFrame, path: string, items: Items)
      returns (f1: ResultFrame)
    requires On(c, base, f) && Harmless(f.place) && Ignored(op, Item(f.place)) && PlaceOf(path) == f.place && path != ""
    ensures See(op, req, c, ItemsTrace(items, path)) == Machines.Advance(With(c, base, f1), []) && SameSpot(f, f1)
    decreases items, 0
  {
    hide See, PlaceOf, AtLeaf, KeyName;
    match items {
      case NoItems =>
        f1 := f;
        SeeNone(op, req, c);
      case AddItem(before, _, value, _) =>
        var f0 := SeeIgnoredItems(op, req, c, base, f, path, before);
        var c0 := With(c, base, f0);
        var p := ItemPath(path);
        SeeParts(op, req, c, ItemsTrace(before, path), Trace(value, p, ""));
        ItemPlace(path);
        NeverTokens(f.place);
        if IsLeaf(value) {
          SeeLeaf(op, req, c0, value, p, "");
          f1 := LeafIgnored(op, c0, base, f0, Item(f.place), "", LeafValue(value, p), LeafKind(value), LeafOverflow(value, p));
        } else {
          SeeIgnored(op, req, c0, value, p, "");
          f1 := f0;
        }
    }
  }

  lemma NeverTokens(p: Place)
    ensures Item(p) != InputTokens
  {
  }

  // ---- What a frame remembers ---------------------------------------------------------------------

  const NOTED: set<string> := {"index", "type", "name", "id", "call_id", "finish_reason"}

  lemma NotedKeysAreShort(path: string, key: string)
    requires key in NOTED
    ensures StringLimit(FieldPath(path, key), false) == MAX_TOKEN
  {
    var p := FieldPath(path, key);
    assert p[|p| - 1] == key[|key| - 1] != 's';
    var suffix := ".function.arguments";
    if |p| >= |suffix| { assert p[|p| - |suffix|..][|suffix| - 1] == p[|p| - 1]; }
    LiteralsEndInS();
  }

  lemma LiteralsEndInS()
    ensures "choices[].message.function_call.arguments"[|"choices[].message.function_call.arguments"| - 1] == 's'
    ensures "output[].arguments"[|"output[].arguments"| - 1] == 's'
  {
  }

  /** The remembered fields of a frame whose members were `ms`. */
  function Noted(f: ResultFrame, ms: Members): ResultFrame {
    f.(index := if IndexAt(ms).Some? then IndexAt(ms).value else f.index,
       indexed := f.indexed || IndexAt(ms).Some?,
       name := StringAt(ms, "name", f.name), id := StringAt(ms, "id", f.id),
       callId := StringAt(ms, "call_id", f.callId), role := StringAt(ms, "type", f.role),
       finish := StringAt(ms, "finish_reason", f.finish))
  }

  lemma NotedContainer(f: ResultFrame, ms: Members)
    requires ms.AddMember? && !IsLeaf(ms.value)
    ensures Noted(f, ms) == Noted(f, ms.front)
  {
  }

  lemma ShownValue(v: Value, path: string, key: string)
    requires IsLeaf(v) && key in NOTED
    ensures LeafValue(v, FieldPath(path, key)) == (if v.Str? then Shown(v.body) else v.token)
    ensures LeafOverflow(v, FieldPath(path, key)) == (v.Str? && |v.body| > MAX_TOKEN)
  {
    NotedKeysAreShort(path, key);
    hide StringLimit;
  }

  lemma NotedLeaf(f: ResultFrame, ms: Members, path: string)
    requires ms.AddMember? && IsLeaf(ms.value)
    ensures Noted(f, ms) == Note(Noted(f, ms.front), NameOf(ms.key), LeafValue(ms.value, FieldPath(path, NameOf(ms.key))), LeafKind(ms.value))
  {
    var key := NameOf(ms.key);
    if key in NOTED { ShownValue(ms.value, path, key); }
    hide NameOf, StringLimit, LeafValue, Count, Shown;
    NotedOne(f, ms, key, LeafValue(ms.value, FieldPath(path, key)));
  }

  lemma NotedOne(f: ResultFrame, ms: Members, key: string, value: bytes)
    requires ms.AddMember? && IsLeaf(ms.value) && key == NameOf(ms.key)
    requires key in NOTED ==> value == (if ms.value.Str? then Shown(ms.value.body) else ms.value.token)
    ensures Noted(f, ms) == Note(Noted(f, ms.front), key, value, LeafKind(ms.value))
  {
    hide NameOf, Shown;
    if ms.value.Str? { assert Count(value, 's').None?; }
  }

  // ---- Functions -------------------------------------------------------------------------------------

  lemma ArgumentsLimit(path: string)
    requires PlaceOf(path) in {FunctionArguments, LegacyArguments}
    ensures StringLimit(path, false) == MAX_ARGUMENTS
  {
    hide PlaceOf, PathOf, EndsWith;
    Recognised(path, PlaceOf(path));
    FunctionSuffix();
    SpelledArguments();
    SpelledLegacyArguments();
  }

  lemma FunctionSuffix()
    ensures EndsWith("choices[].message.tool_calls[].function.arguments", ".function.arguments")
  {
    var p, suffix := "choices[].message.tool_calls[].function.arguments", ".function.arguments";
    assert p[|p| - |suffix|..] == suffix;
  }

  predicate IsFunction(p: Place) {
    p == Function || p == Legacy
  }

  function FunctionFrame(op: Operation, f: ResultFrame, ms: Members): ResultFrame {
    Noted(f, ms).(arguments := f.arguments || (op == Chat && HasMember(ms, "arguments")))
  }

  predicate IdentityFits(key: bytes, value: Value) {
    NameOf(key) in {"id", "name", "call_id"} && value.Str? ==> |value.body| <= MAX_TOKEN && |Unquote(value.body)| <= MAX_IDENTITY
  }

  lemma IdentityChecked(f: ResultFrame, path: string, key: bytes, v: Value)
    requires IsIdentityFrame(f.place) && IsLeaf(v)
    ensures var p := FieldPath(path, NameOf(key));
      OversizedIdentity(f, NameOf(key), LeafValue(v, p), LeafKind(v), LeafOverflow(v, p)) <==> !IdentityFits(key, v)
  {
    var k := NameOf(key);
    if k in NOTED { ShownValue(v, path, k); }
    hide NameOf, StringLimit, Unquote;
  }

  /** A leaf in a function object. */
  lemma FunctionLeaf(op: Operation, c: Contract, base: seq<ResultFrame>, f0: ResultFrame, f: ResultFrame, ms: Members, path: string)
    requires ms.AddMember? && IsLeaf(ms.value) && On(c, base, f) && IsFunction(f.place) && f == FunctionFrame(op, f0, ms.front)
    requires PlaceOf(path) == f.place && path != ""
    ensures var p := FieldPath(path, NameOf(ms.key));
      var r := AtLeaf(op, c, Member(f.place, NameOf(ms.key)), NameOf(ms.key), LeafValue(ms.value, p), LeafKind(ms.value), LeafOverflow(ms.value, p));
      if IdentityFits(ms.key, ms.value) && ArgumentFits(op, ms.key, ms.value)
      then r == Machines.Advance(With(c, base, FunctionFrame(op, f0, ms)), []) else r.Reject?
  {
    hide PlaceOf, AtLeaf, Noted, IdentityFits, ArgumentFits, NameOf, Unquote, StringLimit, OversizedIdentity, LeafValue, LeafOverflow;
    var key := NameOf(ms.key);
    var p := FieldPath(path, key);
    NotedPlace(f0, ms.front);
    assert IsIdentityFrame(f.place);
    IdentityChecked(f, path, ms.key, ms.value);
    NotedLeaf(f0, ms, path);
    if key == "arguments" {
      FunctionMemberPlace(f.place, key);
      BelowMember(f, path, ms.key);
      ArgumentsLimit(p);
      if ms.value.Str? { ArgumentsValue(ms.value, p); }
    }
    ZeroIsNoObject();
    hide ValidArguments, FunctionFrame;
    FunctionLeafAt(op, c, base, f0, f, ms, LeafValue(ms.value, p), LeafOverflow(ms.value, p));
  }

  lemma ArgumentsValue(v: Value, path: string)
    requires v.Str? && StringLimit(path, false) == MAX_ARGUMENTS
    ensures LeafValue(v, path) == if |v.body| <= MAX_ARGUMENTS then Unquote(v.body) else "\0"
  {
    hide Unquote, StringLimit;
  }

  lemma ZeroIsNoObject()
    ensures !ValidArguments("\0")
  {
    hide LeadingSpace, TrailingSpace, Accepts;
    var left := TrimLeft("\0");
    assert "\0"[1..] == "" && TrimLeft("") == "";
    assert left == "\0" || left == "";
    assert "\0"[..0] == "" && TrimRight("") == "";
    assert TrimRight(left) == "\0" || TrimRight(left) == "";
  }

  predicate ArgumentFits(op: Operation, key: bytes, value: Value) {
    op == Chat && NameOf(key) == "arguments" ==> value.Str? && |value.body| <= MAX_ARGUMENTS && ValidArguments(Unquote(value.body))
  }

  /** What a leaf does when its place is not observed. */
  lemma QuietLeaf(op: Operation, c: Contract, f: ResultFrame, place: Place, key: string, value: bytes, kind: char, overflow: bool)
    requires |c.frames| > 0 && Top(c) == f && Unobserved(op, place)
    ensures AtLeaf(op, c, place, key, value, kind, overflow)
            == if ForbiddenLeaf(op, f, place, key, value, kind, overflow) then Machines.Reject
               else Machines.Advance(WithTop(c, LeafFrame(op, f, place, key, value, kind)), [])
  {
    hide ForbiddenLeaf, LeafFrame;
  }

  lemma FunctionForbids(op: Operation, f: ResultFrame, key: string, value: bytes, kind: char, overflow: bool)
    requires IsFunction(f.place)
    ensures ForbiddenLeaf(op, f, Member(f.place, key), key, value, kind, overflow)
            <==> OversizedIdentity(f, key, value, kind, overflow) || (op == Chat && key == "arguments" && (kind != 's' || !ValidArguments(value)))
  {
    FunctionMemberPlace(f.place, key);
    hide Member, ValidArguments, OversizedIdentity, Count;
  }

  lemma FunctionFrameLeaf(op: Operation, f0: ResultFrame, f: ResultFrame, ms: Members, value: bytes)
    requires ms.AddMember? && IsLeaf(ms.value) && IsFunction(f.place) && f == FunctionFrame(op, f0, ms.front)
    requires Noted(f0, ms) == Note(Noted(f0, ms.front), NameOf(ms.key), value, LeafKind(ms.value))
    ensures LeafFrame(op, f, Member(f.place, NameOf(ms.key)), NameOf(ms.key), value, LeafKind(ms.value)) == FunctionFrame(op, f0, ms)
  {
    var key := NameOf(ms.key);
    FunctionMemberPlace(f.place, key);
    NoteKeepsArguments(Noted(f0, ms.front), f.arguments, key, value, LeafKind(ms.value));
    hide NameOf, Member, Noted, Note;
  }

  lemma FunctionLeafAt(op: Operation, c: Contract, base: seq<ResultFrame>, f0: ResultFrame, f: ResultFrame, ms: Members, value: bytes, overflow: bool)
    requires ms.AddMember? && IsLeaf(ms.value) && On(c, base, f) && IsFunction(f.place) && f == FunctionFrame(op, f0, ms.front)
    requires OversizedIdentity(f, NameOf(ms.key), value, LeafKind(ms.value), overflow) <==> !IdentityFits(ms.key, ms.value)
    requires Noted(f0, ms) == Note(Noted(f0, ms.front), NameOf(ms.key), value, LeafKind(ms.value))
    requires NameOf(ms.key) == "arguments" && ms.value.Str? ==>
               (value == if |ms.value.body| <= MAX_ARGUMENTS then Unquote(ms.value.body) else "\0") && !ValidArguments("\0")
    ensures var r := AtLeaf(op, c, Member(f.place, NameOf(ms.key)), NameOf(ms.key), value, LeafKind(ms.value), overflow);
      if IdentityFits(ms.key, ms.value) && ArgumentFits(op, ms.key, ms.value)
      then r == Machines.Advance(With(c, base, FunctionFrame(op, f0, ms)), []) else r.Reject?
  {
    var key, kind := NameOf(ms.key), LeafKind(ms.value);
    FunctionMemberPlace(f.place, key);
    FunctionFrameLeaf(op, f0, f, ms, value);
    FunctionForbids(op, f, key, value, kind, overflow);
    QuietLeaf(op, c, f, Member(f.place, key), key, value, kind, overflow);
    assert ArgumentFits(op, ms.key, ms.value) <==> !(op == Chat && key == "arguments" && (kind != 's' || !ValidArguments(value))) by {
      hide NameOf, ValidArguments, Unquote;
    }
    hide NameOf, ValidArguments, OversizedIdentity, IdentityFits, ArgumentFits, Member, LeafFrame, ForbiddenLeaf, AtLeaf, FunctionFrame;
    assert WithTop(c, FunctionFrame(op, f0, ms)) == With(c, base, FunctionFrame(op, f0, ms));
  }

  lemma NoteKeepsArguments(f: ResultFrame, a: bool, key: string, value: bytes, kind: char)
    ensures Note(f.(arguments := a), key, value, kind) == Note(f, key, value, kind).(arguments := a)
    ensures Note(f, key, value, kind).payload == f.payload && Note(f, key, value, kind).finished == f.finished
  {
    hide Count;
  }

  lemma FunctionMemberPlace(p: Place, key: string)
    requires IsFunction(p)
    ensures if key == "arguments" then Member(p, key) in {Places.FunctionArguments, LegacyArguments} else Member(p, key) == Elsewhere
  {
  }

  lemma ArgumentsRejectContainers(op: Operation, req: Requirements, c: Contract, v: Value, path: string, key: string)
    requires op == Chat && !IsLeaf(v) && PlaceOf(path) in {Places.FunctionArguments, LegacyArguments}
    ensures See(op, req, c, Trace(v, path, key)).Reject?
  {
    hide See, PlaceOf;
    var kind := if v.Obj? then '{' else '[';
    var inner := if v.Obj? then MembersTrace(v.members, path) else ItemsTrace(v.items, path);
    OpeningRejects(op, req, c, path, kind, inner + [Closed(path, kind)]);
    assert [Opened(path, kind)] + (inner + [Closed(path, kind)]) == Trace(v, path, key);
  }

  lemma OpeningRejects(op: Operation, req: Requirements, c: Contract, path: string, kind: char, rest: seq<Event>)
    requires Open(op, c, PlaceOf(path), kind).Reject?
    ensures See(op, req, c, [Opened(path, kind)] + rest).Reject?
  {
    hide See, PlaceOf, Open;
    SeeParts(op, req, c, [Opened(path, kind)], rest);
    SeeOne(op, req, c, Opened(path, kind));
  }

  lemma SeeFunctionMember(op: Operation, req: Requirements, c: Contract, base: seq<ResultFrame>, f0: ResultFrame, f: ResultFrame, path: string, ms: Members)
    requires ms.AddMember? && On(c, base, f) && IsFunction(f.place) && f == FunctionFrame(op, f0, ms.front) && PlaceOf(path) == f.place && path != ""
    ensures var p := FieldPath(path, NameOf(ms.key));
      See(op, req, c, Trace(ms.value, p, NameOf(ms.key)))
      == if IdentityFits(ms.key, ms.value) && ArgumentFits(op, ms.key, ms.value) then Machines.Advance(With(c, base, FunctionFrame(op, f0, ms)), [])
         else Machines.Reject
  {
    var p, key := FieldPath(path, NameOf(ms.key)), NameOf(ms.key);
    BelowMember(f, path, ms.key);
    FunctionMemberPlace(f.place, key);
    if IsLeaf(ms.value) {
      hide PlaceOf, AtLeaf, KeyName, NameOf, Member, FunctionFrame, IdentityFits, ArgumentFits, Trace;
      SeeMemberLeaf(op, req, c, base, f, path, ms.key, ms.value);
      FunctionLeaf(op, c, base, f0, f, ms, path);
    } else {
      FunctionContainer(op, f0, ms);
      hide PlaceOf, AtLeaf, KeyName, NameOf, Member, FunctionFrame, Trace;
      if op == Chat && key == "arguments" {
        ArgumentsRejectContainers(op, req, c, ms.value, p, key);
      } else {
        SeeIgnored(op, req, c, ms.value, p, key);
        assert c.(frames := base + [f]) == c;
      }
    }
  }

  lemma FunctionContainer(op: Operation, f0: ResultFrame, ms: Members)
    requires ms.AddMember? && !IsLeaf(ms.value)
    ensures op != Chat || NameOf(ms.key) != "arguments" ==> FunctionFrame(op, f0, ms) == FunctionFrame(op, f0, ms.front)
    ensures IdentityFits(ms.key, ms.value) && (ArgumentFits(op, ms.key, ms.value) <==> op != Chat || NameOf(ms.key) != "arguments")
  {
    NotedContainer(f0, ms);
    hide Noted, NameOf, Unquote, ValidArguments;
  }

  lemma FunctionGoodGrows(op: Operation, ms: Members)
    requires ms.AddMember?
    ensures FunctionGood(op, ms) <==> FunctionGood(op, ms.front) && IdentityFits(ms.key, ms.value) && ArgumentFits(op, ms.key, ms.value)
  {
    hide NameOf, Unquote, ValidArguments;
  }

  lemma {:induction false} SeeFunctionMembers(op: Operation, req: Requirements, c: Contract, base: seq<ResultFrame>, f: ResultFrame, path: string, ms: Members)
    requires On(c, base, f) && IsFunction(f.place) && PlaceOf(path) == f.place && path != ""
    ensures See(op, req, c, MembersTrace(ms, path))
            == if FunctionGood(op, ms) then Machines.Advance(With(c, base, FunctionFrame(op, f, ms)), []) else Machines.Reject
    decreases ms
  {
    hide See, PlaceOf, KeyName, NameOf, FunctionFrame, FunctionGood, Trace, IdentityFits, ArgumentFits, SameSpot;
    match ms {
      case NoMembers =>
        NoFunctionMembers(op, f);
        SeeNone(op, req, c);
      case AddMember(front, _, key, _, _, value, _) =>
        SeeFunctionMembers(op, req, c, base, f, path, front);
        FunctionGoodGrows(op, ms);
        FunctionFrameSpot(op, f, front);
        var p := FieldPath(path, NameOf(key));
        SeeParts(op, req, c, MembersTrace(front, path), Trace(value, p, NameOf(key)));
        if FunctionGood(op, front) {
          var f0 := FunctionFrame(op, f, front);
          SeeFunctionMember(op, req, With(c, base, f0), base, f, f0, path, ms);
        }
    }
  }

  lemma NoFunctionMembers(op: Operation, f: ResultFrame)
    ensures FunctionFrame(op, f, NoMembers) == f && FunctionGood(op, NoMembers)
  {
    NotedNone(f);
  }

  lemma FunctionFrameSpot(op: Operation, f: ResultFrame, ms: Members)
    ensures SameSpot(f, FunctionFrame(op, f, ms))
  {
    NotedPlace(f, ms);
  }

  lemma NotedNone(f: ResultFrame)
    ensures Noted(f, NoMembers) == f
  {
  }

  lemma NotedPlace(f: ResultFrame, ms: Members)
    ensures SameSpot(f, Noted(f, ms)) && Noted(f, ms).tools == f.tools && Noted(f, ms).payload == f.payload
    ensures Noted(f, ms).arguments == f.arguments && Noted(f, ms).finished == f.finished && Noted(f, ms).message == f.message
  {
  }

  // ---- Tool calls ------------------------------------------------------------------------------------------

  function CallFrame(op: Operation, f: ResultFrame, ms: Members): ResultFrame {
    Noted(f, ms).(name := CallName(ms, f.name), arguments := CallArguments(op, ms, f.arguments))
  }

  lemma OpenFunction(op: Operation, c: Contract, place: Place, kind: char)
    requires place in {Function, ToolCall, Legacy, ToolCalls} || (place == Choices && kind == '[')
             || (place in {OutputItem, Block} && !ForbiddenContainer(op, place, kind))
    requires |c.frames| > 0
    ensures Open(op, c, place, kind) == Machines.Advance(c.(frames := c.frames + [NewFrame(place, kind)]), [])
  {
    OpenQuiet(op, c, place, kind);
  }

  /** The object or array under `function`, inside the frame `f` of its call. */
  lemma SeeFunction(op: Operation, req: Requirements, c: Contract, base: seq<ResultFrame>, f: ResultFrame, v: Value, path: string, key: string)
    requires On(c, base, f) && f.place == ToolCall && !IsLeaf(v) && PlaceOf(path) == Function && path != ""
    ensures See(op, req, c, Trace(v, path, key))
            == if v.Obj? && !FunctionGood(op, v.members) then Machines.Reject
               else Machines.Advance(With(c, base, f.(name := FunctionName(v), arguments := ChatDocument.FunctionArguments(op, v))), [])
  {
    hide See, PlaceOf, Open, Close, Noted;
    var kind := if v.Obj? then '{' else '[';
    var inner := if v.Obj? then MembersTrace(v.members, path) else ItemsTrace(v.items, path);
    var new1 := NewFrame(Function, kind);
    OpenFunction(op, c, Function, kind);
    var inside := With(c, c.frames, new1);
    if v.Obj? {
      SeeFunctionMembers(op, req, inside, c.frames, new1, path, v.members);
      if FunctionGood(op, v.members) {
        var g := FunctionFrame(op, new1, v.members);
        FunctionFrameIs(op, new1, v.members);
        Bracketed(op, req, c, inside, With(c, c.frames, g), path, kind, inner);
        CloseFunction(op, req, With(c, c.frames, g), base, f, g);
      } else {
        BracketRejects(op, req, c, inside, path, kind, inner);
      }
    } else {
      ItemPlace(path);
      assert Item(Function) == Elsewhere;
      var g := SeeEmptyItems(op, req, inside, c.frames, new1, path, v.items);
      Bracketed(op, req, c, inside, With(c, c.frames, g), path, kind, inner);
      CloseFunction(op, req, With(c, c.frames, g), base, f, g);
    }
  }

  lemma FunctionFrameIs(op: Operation, f: ResultFrame, ms: Members)
    ensures var g := FunctionFrame(op, f, ms);
      SameSpot(f, g) && g.name == StringAt(ms, "name", f.name) && g.arguments == (f.arguments || (op == Chat && HasMember(ms, "arguments")))
  {
  }

  lemma BracketRejects(op: Operation, req: Requirements, c: Contract, c1: Contract, path: string, kind: char, inner: seq<Event>)
    requires Open(op, c, PlaceOf(path), kind) == Machines.Advance(c1, []) && See(op, req, c1, inner).Reject?
    ensures See(op, req, c, [Opened(path, kind)] + inner + [Closed(path, kind)]).Reject?
  {
    hide See, PlaceOf, Open, Close;
    SeeOne(op, req, c, Opened(path, kind));
    SeeParts(op, req, c, [Opened(path, kind)], inner);
    SeeParts(op, req, c, [Opened(path, kind)] + inner, [Closed(path, kind)]);
  }

  lemma CloseFunction(op: Operation, req: Requirements, c: Contract, base: seq<ResultFrame>, f: ResultFrame, g: ResultFrame)
    requires c.frames == base + [f] + [g] && f.place == ToolCall && g.place == Function
    ensures Close(op, req, c) == Machines.Advance(With(c, base, f.(name := g.name, arguments := g.arguments)), [])
  {
    var popped := base + [f];
    assert c.frames[..|c.frames| - 1] == popped;
    assert Nearest(popped, ToolCall) == |base|;
    assert popped[|base| := f.(name := g.name, arguments := g.arguments)] == base + [f.(name := g.name, arguments := g.arguments)];
  }

  /** Leaves and ignored containers in an array leave its frame as it was. */
  lemma {:induction false} SeeEmptyItems(op: Operation, req: Requirements, c: Contract, base: seq<ResultFrame>, f: ResultFrame, path: string, items: Items)
      returns (f1: ResultFrame)
    requires On(c, base, f) && Item(f.place) == Elsewhere && PlaceOf(ItemPath(path)) == Elsewhere
    ensures f1 == f && See(op, req, c, ItemsTrace(items, path)) == Machines.Advance(c, [])
    decreases items
  {
    hide See, PlaceOf, AtLeaf;
    f1 := f;
    match items {
      case NoItems => SeeNone(op, req, c);
      case AddItem(before, _, value, _) =>
        var f0 := SeeEmptyItems(op, req, c, base, f, path, before);
        var p := ItemPath(path);
        SeeParts(op, req, c, ItemsTrace(before, path), Trace(value, p, ""));
        if IsLeaf(value) {
          SeeLeaf(op, req, c, value, p, "");
          LeafUnnoticed(op, c, base, f, Elsewhere, LeafValue(value, p), LeafKind(value), LeafOverflow(value, p));
        } else {
          SeeIgnored(op, req, c, value, p, "");
        }
    }
  }

  lemma LeafUnnoticed(op: Operation, c: Contract, base: seq<ResultFrame>, f: ResultFrame, place: Place, value: bytes, kind: char, overflow: bool)
    requires On(c, base, f) && place in {Elsewhere, ToolCall, OutputItem, OutputPart, Block} && !ItemMustBeObject(op, place)
    ensures AtLeaf(op, c, place, "", value, kind, overflow) == Machines.Advance(c, [])
  {
    UnnamedLeafFrame(op, f, place, value, kind);
    UnnamedAllowed(op, f, place, value, kind, overflow);
    hide AtLeaf, ForbiddenLeaf, LeafFrame;
    QuietLeaf(op, c, f, place, "", value, kind, overflow);
    SameTop(c);
  }

  lemma UnnamedLeafFrame(op: Operation, f: ResultFrame, place: Place, value: bytes, kind: char)
    requires place in {Elsewhere, ToolCall, OutputItem, OutputPart, Block}
    ensures LeafFrame(op, f, place, "", value, kind) == f
  {
    hide Count;
  }

  lemma UnnamedAllowed(op: Operation, f: ResultFrame, place: Place, value: bytes, kind: char, overflow: bool)
    requires place in {Elsewhere, ToolCall, OutputItem, OutputPart, Block} && !ItemMustBeObject(op, place)
    ensures !ForbiddenLeaf(op, f, place, "", value, kind, overflow)
  {
    hide Count, ValidArguments;
  }

  lemma CallMemberPlace(key: string)
    ensures Member(ToolCall, key) == if key == "function" then Function else Elsewhere
  {
  }

  lemma CallLeaf(op: Operation, c: Contract, base: seq<ResultFrame>, f0: ResultFrame, f: ResultFrame, ms: Members, path: string)
    requires ms.AddMember? && IsLeaf(ms.value) && On(c, base, f) && f.place == ToolCall && f == CallFrame(op, f0, ms.front)
    ensures var p := FieldPath(path, NameOf(ms.key));
      var r := AtLeaf(op, c, Member(f.place, NameOf(ms.key)), NameOf(ms.key), LeafValue(ms.value, p), LeafKind(ms.value), LeafOverflow(ms.value, p));
      if IdentityFits(ms.key, ms.value) then r == Machines.Advance(With(c, base, CallFrame(op, f0, ms)), []) else r.Reject?
  {
    hide NameOf, LeafValue, LeafOverflow, OversizedIdentity, IdentityFits, Shown, LeafFrame, AtLeaf, ForbiddenLeaf, CallFrame, Member;
    var key := NameOf(ms.key);
    var p := FieldPath(path, key);
    IdentityChecked(f, path, ms.key, ms.value);
    CallMemberPlace(key);
    NotedLeaf(f0, ms, path);
    if key in NOTED { ShownValue(ms.value, path, key); }
    CallForbids(op, f, key, LeafValue(ms.value, p), LeafKind(ms.value), LeafOverflow(ms.value, p));
    CallFrameLeaf(op, f0, ms, LeafValue(ms.value, p));
    QuietLeaf(op, c, f, Member(f.place, key), key, LeafValue(ms.value, p), LeafKind(ms.value), LeafOverflow(ms.value, p));
    assert WithTop(c, CallFrame(op, f0, ms)) == With(c, base, CallFrame(op, f0, ms));
  }

  lemma CallForbids(op: Operation, f: ResultFrame, key: string, value: bytes, kind: char, overflow: bool)
    requires f.place == ToolCall
    ensures ForbiddenLeaf(op, f, Member(ToolCall, key), key, value, kind, overflow) <==> OversizedIdentity(f, key, value, kind, overflow)
  {
    CallMemberPlace(key);
    hide Member, ValidArguments, OversizedIdentity, Count;
  }

  lemma CallFrameLeaf(op: Operation, f0: ResultFrame, ms: Members, value: bytes)
    requires ms.AddMember? && IsLeaf(ms.value)
    requires Noted(f0, ms) == Note(Noted(f0, ms.front), NameOf(ms.key), value, LeafKind(ms.value))
    requires NameOf(ms.key) == "name" && ms.value.Str? ==> value == Shown(ms.value.body)
    ensures LeafFrame(op, CallFrame(op, f0, ms.front), Member(ToolCall, NameOf(ms.key)), NameOf(ms.key), value, LeafKind(ms.value))
            == CallFrame(op, f0, ms)
  {
    CallMemberPlace(NameOf(ms.key));
    hide NameOf, Count, Shown, Member, Noted;
  }

  predicate CallMemberGood(op: Operation, key: bytes, value: Value) {
    IdentityFits(key, value) && (NameOf(key) == "function" && value.Obj? ==> FunctionGood(op, value.members))
  }

  lemma CallMembersGrow(op: Operation, ms: Members)
    requires ms.AddMember?
    ensures CallMembersGood(op, ms) <==> CallMembersGood(op, ms.front) && CallMemberGood(op, ms.key, ms.value)
  {
    hide NameOf, Unquote, FunctionGood;
  }

  lemma CallContainer(op: Operation, f0: ResultFrame, ms: Members)
    requires ms.AddMember? && !IsLeaf(ms.value)
    ensures CallFrame(op, f0, ms) == if NameOf(ms.key) == "function"
                                 then CallFrame(op, f0, ms.front).(name := FunctionName(ms.value), arguments := ChatDocument.FunctionArguments(op, ms.value))
                                 else CallFrame(op, f0, ms.front)
    ensures CallMemberGood(op, ms.key, ms.value) <==> !(NameOf(ms.key) == "function" && ms.value.Obj? && !FunctionGood(op, ms.value.members))
  {
    NotedContainer(f0, ms);
    hide Noted, NameOf, FunctionGood, FunctionName;
  }

  lemma SeeCallMember(op: Operation, req: Requirements, c: Contract, base: seq<ResultFrame>, f0: ResultFrame, f: ResultFrame, path: string, ms: Members)
    requires ms.AddMember? && On(c, base, f) && f.place == ToolCall && f == CallFrame(op, f0, ms.front) && PlaceOf(path) == ToolCall && path != ""
    ensures var p := FieldPath(path, NameOf(ms.key));
      See(op, req, c, Trace(ms.value, p, NameOf(ms.key)))
      == if CallMemberGood(op, ms.key, ms.value) then Machines.Advance(With(c, base, CallFrame(op, f0, ms)), []) else Machines.Reject
  {
    hide See, PlaceOf, AtLeaf, KeyName, NameOf, Member, CallFrame, Trace, IdentityFits, FunctionGood, FunctionName, ChatDocument.FunctionArguments;
    var p, key := FieldPath(path, NameOf(ms.key)), NameOf(ms.key);
    BelowMember(f, path, ms.key);
    CallMemberPlace(key);
    if IsLeaf(ms.value) {
      SeeMemberLeaf(op, req, c, base, f, path, ms.key, ms.value);
      CallLeaf(op, c, base, f0, f, ms, path);
    } else {
      CallContainer(op, f0, ms);
      hide CallMemberGood;
      if key == "function" {
        SeeFunction(op, req, c, base, f, ms.value, p, key);
      } else {
        SeeIgnored(op, req, c, ms.value, p, key);
        assert c.(frames := base + [f]) == c;
      }
    }
  }

  lemma {:induction false} SeeCallMembers(op: Operation, req: Requirements, c: Contract, base: seq<ResultFrame>, f: ResultFrame, path: string, ms: Members)
    requires On(c, base, f) && f.place == ToolCall && PlaceOf(path) == ToolCall && path != ""
    ensures See(op, req, c, MembersTrace(ms, path))
            == if CallMembersGood(op, ms) then Machines.Advance(With(c, base, CallFrame(op, f, ms)), []) else Machines.Reject
    decreases ms
  {
    match ms {
      case NoMembers =>
        NotedNone(f);
        hide Noted;
        SeeNone(op, req, c);
      case AddMember(front, _, key, _, _, value, _) =>
        SeeCallMembers(op, req, c, base, f, path, front);
        CallMembersGrow(op, ms);
        NotedPlace(f, front);
        var f0 := CallFrame(op, f, front);
        assert SameSpot(f, f0);
        hide PlaceOf, KeyName, NameOf, CallFrame, CallMembersGood, Trace, CallMemberGood;
        var p := FieldPath(path, NameOf(key));
        SeeParts(op, req, c, MembersTrace(front, path), Trace(value, p, NameOf(key)));
        if CallMembersGood(op, front) {
          SeeCallMember(op, req, With(c, base, f0), base, f, f0, path, ms);
        }
    }
  }

  // ---- Recording calls ------------------------------------------------------------------------------------

  function RecordAll(c: Contract, ids: seq<string>): Verdict {
    if |ids| == 0 then Machines.Advance(c, [])
    else
      match RecordAll(c, ids[..|ids| - 1])
      case Reject => Machines.Reject
      case Advance(c1, _) => RecordTool(c1, ids[|ids| - 1])
  }

  function WithFrames(v: Verdict, frames: seq<ResultFrame>): Verdict {
    match v
    case Reject => Machines.Reject
    case Advance(c, _) => Machines.Advance(c.(frames := frames), [])
  }

  lemma {:induction false} RecordAllFrames(c: Contract, ids: seq<string>, frames: seq<ResultFrame>)
    ensures RecordAll(c.(frames := frames), ids) == WithFrames(RecordAll(c, ids), frames)
    ensures RecordAll(c, ids) == WithFrames(RecordAll(c, ids), c.frames)
  {
    if |ids| > 0 { RecordAllFrames(c, ids[..|ids| - 1], frames); }
  }

  lemma {:induction false} RecordAllAppend(c: Contract, a: seq<string>, b: seq<string>)
    ensures RecordAll(c, a + b) == match RecordAll(c, a) { case Reject => Machines.Reject case Advance(c1, _) => RecordAll(c1, b) }
    decreases |b|
  {
    if |b| == 0 {
      assert a + b == a;
      RecordAllFrames(c, a, []);
    } else {
      assert (a + b)[..|a + b| - 1] == a + b[..|b| - 1];
      RecordAllAppend(c, a, b[..|b| - 1]);
    }
  }

  lemma RecordAllOne(c: Contract, id: string)
    ensures RecordAll(c, [id]) == RecordTool(c, id)
  {
    assert [id][..0] == [];
    assert RecordAll(c, []) == Machines.Advance(c, []);
  }

  // ---- Call lists --------------------------------------------------------------------------------------------

  function Calling(m: ResultFrame, n: nat): ResultFrame {
    m.(tools := m.tools + n, payload := m.payload || n > 0)
  }

  function CloseId(f: ResultFrame): string {
    if f.place == Legacy then "" else f.id
  }

  predicate CloseGood(req: Requirements, f: ResultFrame) {
    f.name != "" && f.arguments && (f.place == ToolCall ==> f.id != "" && f.role == "function") && AcceptsTool(req, f.name)
  }

  function MakesCall(): ResultFrame -> ResultFrame {
    (p: ResultFrame) => p.(tools := p.tools + 1, payload := true)
  }

  lemma CloseCallSays(op: Operation, req: Requirements, c: Contract, f: ResultFrame)
    requires f.place in {ToolCall, Legacy}
    ensures CloseFrame(op, req, c, f)
            == if !CloseGood(req, f) || RecordTool(c, CloseId(f)).Reject? then Machines.Reject
               else Machines.Advance(Update(RecordTool(c, CloseId(f)).next, Message, MakesCall()), [])
  {
    hide AcceptsTool, RecordTool, Update;
    assert CloseFrame(op, req, c, f) == CloseCall(req, c, f);
  }

  lemma UpdateMessage(c: Contract, base: seq<ResultFrame>, m: ResultFrame, between: seq<ResultFrame>)
    requires c.frames == base + [m] + between && m.place == Message && |between| <= 1 && forall g :: g in between ==> g.place == ToolCalls
    ensures Update(c, Message, MakesCall()) == c.(frames := base + [Calling(m, 1)] + between)
  {
    NearestMessage(base, m, between);
    assert c.frames[|base|] == m;
    assert c.frames[|base| := Calling(m, 1)] == base + [Calling(m, 1)] + between;
    hide Nearest, Calling;
    assert MakesCall()(m) == Calling(m, 1) by { MakesCallIs(m); }
  }

  lemma MakesCallIs(m: ResultFrame)
    ensures MakesCall()(m) == Calling(m, 1)
  {
  }

  /** The end of a call: it is recorded, and its message makes one more call. */
  lemma CloseCallIs(op: Operation, req: Requirements, c: Contract, base: seq<ResultFrame>, m: ResultFrame, between: seq<ResultFrame>, f: ResultFrame)
    requires c.frames == base + [m] + between + [f] && m.place == Message
    requires |between| <= 1 && forall g :: g in between ==> g.place == ToolCalls
    requires f.place in {ToolCall, Legacy}
    ensures Close(op, req, c)
            == if CloseGood(req, f) then WithFrames(RecordTool(c, CloseId(f)), base + [Calling(m, 1)] + between) else Machines.Reject
  {
    var popped := base + [m] + between;
    assert c.frames[..|c.frames| - 1] == popped && Top(c) == f;
    var c0 := c.(frames := popped);
    assert Close(op, req, c) == CloseFrame(op, req, c0, f);
    CloseCallSays(op, req, c0, f);
    RecordToolPopped(c, popped, CloseId(f));
    hide CloseGood, RecordTool, Update, CloseFrame, CloseId, Calling;
    if RecordTool(c0, CloseId(f)).Advance? { UpdateMessage(RecordTool(c0, CloseId(f)).next, base, m, between); }
  }

  lemma RecordToolPopped(c: Contract, frames: seq<ResultFrame>, id: string)
    ensures RecordTool(c.(frames := frames), id) == WithFrames(RecordTool(c, id), frames)
  {
  }

  lemma NearestMessage(base: seq<ResultFrame>, m: ResultFrame, between: seq<ResultFrame>)
    requires m.place == Message && |between| <= 1 && forall g :: g in between ==> g.place == ToolCalls
    ensures Nearest(base + [m] + between, Message) == |base|
  {
    if |between| == 1 {
      assert (base + [m] + between)[..|base| + 1] == base + [m];
    } else {
      assert base + [m] + between == base + [m];
    }
  }

  lemma SeeCall(op: Operation, req: Requirements, c: Contract, base: seq<ResultFrame>, m: ResultFrame, t: ResultFrame, v: Value, path: string)
    requires c.frames == base + [m] + [t] && m.place == Message && t.place == ToolCalls
    requires !IsLeaf(v) && PlaceOf(path) == ToolCall && path != ""
    ensures See(op, req, c, Trace(v, path, ""))
            == if CallComplete(op, req, v) then WithFrames(RecordTool(c, CallId(v)), base + [Calling(m, 1)] + [t]) else Machines.Reject
  {
    hide See, PlaceOf, Open, Close, Noted, AcceptsTool, RecordTool, CallMembersGood, CallName, CallArguments, StringAt;
    var kind := if v.Obj? then '{' else '[';
    var inner := if v.Obj? then MembersTrace(v.members, path) else ItemsTrace(v.items, path);
    var new1 := NewFrame(ToolCall, kind);
    OpenFunction(op, c, ToolCall, kind);
    var inside := With(c, c.frames, new1);
    if v.Obj? && !CallMembersGood(op, v.members) {
      SeeCallMembers(op, req, inside, c.frames, new1, path, v.members);
      BracketRejects(op, req, c, inside, path, kind, inner);
    } else {
      var g := new1;
      if v.Obj? {
        SeeCallMembers(op, req, inside, c.frames, new1, path, v.members);
        g := CallFrame(op, new1, v.members);
        CallFrameIs(op, new1, v.members);
      } else {
        ItemPlace(path);
        assert Item(ToolCall) == Elsewhere;
        g := SeeEmptyItems(op, req, inside, c.frames, new1, path, v.items);
      }
      var c2 := With(c, c.frames, g);
      Bracketed(op, req, c, inside, c2, path, kind, inner);
      CloseCallIs(op, req, c2, base, m, [t], g);
      RecordToolFrames(c, c2.frames, g.id);
    }
  }

  lemma CallFrameIs(op: Operation, f: ResultFrame, ms: Members)
    ensures var g := CallFrame(op, f, ms);
      SameSpot(f, g) && g.name == CallName(ms, f.name) && g.arguments == CallArguments(op, ms, f.arguments)
      && g.id == StringAt(ms, "id", f.id) && g.role == StringAt(ms, "type", f.role)
  {
  }

  lemma RecordToolFrames(c: Contract, frames: seq<ResultFrame>, id: string)
    ensures forall fs :: WithFrames(RecordTool(c.(frames := frames), id), fs) == WithFrames(RecordTool(c, id), fs)
  {
  }

  /** One more item of `tool_calls`, after calls with the identities `ids`. */
  lemma SeeCallItem(op: Operation, req: Requirements, c: Contract, base: seq<ResultFrame>, m: ResultFrame, t: ResultFrame, path: string, value: Value)
    requires c.frames == base + [m] + [t] && m.place == Message && t.place == ToolCalls && PlaceOf(path) == ToolCall && path != ""
    ensures See(op, req, c, Trace(value, path, ""))
            == if IsLeaf(value) then Machines.Advance(c, [])
               else if CallComplete(op, req, value) then WithFrames(RecordAll(c, [CallId(value)]), base + [Calling(m, 1)] + [t]) else Machines.Reject
  {
    hide See, PlaceOf, AtLeaf, CallComplete, RecordTool, Trace;
    if IsLeaf(value) {
      SeeLeaf(op, req, c, value, path, "");
      LeafUnnoticed(op, c, base + [m], t, ToolCall, LeafValue(value, path), LeafKind(value), LeafOverflow(value, path));
    } else {
      SeeCall(op, req, c, base, m, t, value, path);
      RecordAllOne(c, CallId(value));
    }
  }

  function ItemIds(value: Value): seq<string> {
    if IsLeaf(value) then [] else [CallId(value)]
  }

  lemma CallingMore(m: ResultFrame, a: nat, b: nat)
    ensures Calling(Calling(m, a), b) == Calling(m, a + b)
  {
  }

  lemma CallsCompleteFront(op: Operation, req: Requirements, items: Items)
    requires items.AddItem?
    ensures CallsComplete(op, req, items) <==> CallsComplete(op, req, items.before) && (IsLeaf(items.value) || CallComplete(op, req, items.value))
  {
    hide CallComplete;
  }

  lemma CallIdsGrow(items: Items)
    requires items.AddItem?
    ensures CallIds(items) == CallIds(items.before) + ItemIds(items.value)
  {
  }

  lemma ItemsTraceGrows(items: Items, path: string)
    requires items.AddItem?
    ensures ItemsTrace(items, path) == ItemsTrace(items.before, path) + Trace(items.value, ItemPath(path), "")
  {
  }

  lemma ItemsPlace(path: string, place: Place)
    requires PlaceOf(path) == place
    ensures PlaceOf(ItemPath(path)) == Item(place) && ItemPath(path) != ""
  {
    hide PlaceOf;
    ItemPlace(path);
  }

  lemma NoCallItems(op: Operation, req: Requirements, c: Contract, m: ResultFrame, path: string)
    ensures See(op, req, c, ItemsTrace(NoItems, path)) == Machines.Advance(c, [])
    ensures CallsComplete(op, req, NoItems) && CallIds(NoItems) == [] && Calling(m, 0) == m
    ensures WithFrames(RecordAll(c, []), c.frames) == Machines.Advance(c, [])
  {
    SeeNone(op, req, c);
  }

  /** The items of `tool_calls`. */
  lemma {:induction false} SeeCallItems(op: Operation, req: Requirements, c: Contract, base: seq<ResultFrame>, m: ResultFrame, t: ResultFrame, path: string, items: Items)
    requires c.frames == base + [m] + [t] && m.place == Message && t.place == ToolCalls && PlaceOf(path) == ToolCalls
    ensures See(op, req, c, ItemsTrace(items, path))
            == if CallsComplete(op, req, items) then WithFrames(RecordAll(c, CallIds(items)), base + [Calling(m, |CallIds(items)|)] + [t])
               else Machines.Reject
    decreases items
  {
    hide See, PlaceOf, CallComplete, CallsComplete, RecordTool, RecordAll, CallIds, Calling, ItemIds, Trace, ItemsTrace;
    match items {
      case NoItems =>
        NoCallItems(op, req, c, m, path);
      case AddItem(before, _, value, _) =>
        SeeCallItems(op, req, c, base, m, t, path, before);
        var p := ItemPath(path);
        ItemsTraceGrows(items, path);
        SeeParts(op, req, c, ItemsTrace(before, path), Trace(value, p, ""));
        ItemsPlace(path, ToolCalls);
        CallIdsGrow(items);
        CallsCompleteFront(op, req, items);
        RecordAllAppend(c, CallIds(before), ItemIds(value));
        if CallsComplete(op, req, before) && RecordAll(c, CallIds(before)).Advance? {
          SeeNextCall(op, req, RecordAll(c, CallIds(before)).next, |CallIds(before)|, base, m, t, p, value);
        }
    }
  }

  lemma SeeNextCall(op: Operation, req: Requirements, c: Contract, n: nat, base: seq<ResultFrame>, m: ResultFrame, t: ResultFrame, path: string, value: Value)
    requires m.place == Message && t.place == ToolCalls && PlaceOf(path) == ToolCall && path != ""
    ensures See(op, req, c.(frames := base + [Calling(m, n)] + [t]), Trace(value, path, ""))
            == if IsLeaf(value) || CallComplete(op, req, value)
               then WithFrames(RecordAll(c, ItemIds(value)), base + [Calling(m, n + |ItemIds(value)|)] + [t]) else Machines.Reject
  {
    hide See, PlaceOf, CallComplete, RecordTool, RecordAll, Trace, Calling, CallId, WithFrames;
    var more := ItemIds(value);
    var m0 := Calling(m, n);
    var c0 := c.(frames := base + [m0] + [t]);
    CallingPlace(m, n);
    SeeCallItem(op, req, c0, base, m0, t, path, value);
    CallingMore(m, n, |more|);
    var framed := base + [Calling(m, n + |more|)] + [t];
    if IsLeaf(value) {
      RecordAllNothing(c);
      WithFramesOf(c, framed);
    } else {
      RecordAllFrames(c, more, c0.frames);
      WithFramesTwice(RecordAll(c, more), c0.frames, framed);
    }
  }

  lemma CallingPlace(m: ResultFrame, n: nat)
    ensures Calling(m, n).place == m.place
  {
  }

  lemma WithFramesTwice(v: Verdict, a: seq<ResultFrame>, b: seq<ResultFrame>)
    ensures WithFrames(WithFrames(v, a), b) == WithFrames(v, b)
  {
  }

  lemma WithFramesOf(c: Contract, frames: seq<ResultFrame>)
    ensures WithFrames(Machines.Advance(c, []), frames) == Machines.Advance(c.(frames := frames), [])
  {
  }

  lemma RecordAllNothing(c: Contract)
    ensures RecordAll(c, []) == Machines.Advance(c, [])
  {
  }
}
