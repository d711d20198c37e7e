/**
  The items of a Responses answer and the blocks of a Messages answer, and what stands at
  those places in the answers to other operations.
 */
module ItemReading {
  import opened GoText
  import opened JsonGrammar
  import opened JsonScanner
  import opened Places
  import opened CompletionContract
  import opened ChatDocument
  import opened AnswerDocument
  import opened JsonReading
  import opened ChatReading
  import opened ChatVerdict
  import Machines

  // ---- Items that other protocols would call tool calls -----------------------------------

  predicate Tolerated(op: Operation, p: Place) {
    (p == OutputItem && op != Responses) || (p == Block && op != Messages)
  }

  lemma ToleratedMember(op: Operation, p: Place, key: string)
    requires Tolerated(op, p)
    ensures Member(p, key) == BlockInput || (Ignored(op, Member(p, key)) && Member(p, key) != InputTokens)
  {
  }

  lemma ToleratedForbids(op: Operation, f: ResultFrame, key: string, value: bytes, kind: char, overflow: bool)
    requires Tolerated(op, f.place)
    ensures ForbiddenLeaf(op, f, Member(f.place, key), key, value, kind, overflow) <==> OversizedIdentity(f, key, value, kind, overflow)
    ensures Unobserved(op, Member(f.place, key))
  {
    ToleratedMember(op, f.place, key);
    hide Member, ValidArguments, OversizedIdentity, Count;
  }

  /** A leaf of such an item: only the length of an identity matters. */
  lemma ToleratedLeaf(op: Operation, c: Contract, base: seq<ResultFrame>, f: ResultFrame, path: string, key: bytes, v: Value) returns (f1: ResultFrame)
    requires On(c, base, f) && Tolerated(op, f.place) && IsLeaf(v)
    ensures var p := FieldPath(path, NameOf(key));
      AtLeaf(op, c, Member(f.place, NameOf(key)), NameOf(key), LeafValue(v, p), LeafKind(v), LeafOverflow(v, p))
      == Only(IdentityFits(key, v), Machines.Advance(With(c, base, f1), []))
    ensures SameSpot(f, f1)
  {
    hide NameOf, LeafValue, LeafOverflow, LeafFrame, OversizedIdentity, IdentityFits, Member, AtLeaf, ForbiddenLeaf;
    var k := NameOf(key);
    var p := FieldPath(path, k);
    var place := Member(f.place, k);
    IdentityChecked(f, path, key, v);
    ToleratedForbids(op, f, k, LeafValue(v, p), LeafKind(v), LeafOverflow(v, p));
    f1 := LeafFrame(op, f, place, k, LeafValue(v, p), LeafKind(v));
    LeafFrameKeeps(op, f, place, k, LeafValue(v, p), LeafKind(v));
    QuietLeaf(op, c, f, place, k, LeafValue(v, p), LeafKind(v), LeafOverflow(v, p));
    assert WithTop(c, f1) == With(c, base, f1);
  }

  /** The value under `input`, in a content block. */
  lemma SeeBlockInput(op: Operation, req: Requirements, c: Contract, base: seq<ResultFrame>, f: ResultFrame, v: Value, path: string, key: string)
      returns (f1: ResultFrame)
    requires On(c, base, f) && !IsLeaf(v) && PlaceOf(path) == BlockInput && path != ""
    ensures f1 == f.(arguments := f.arguments || v.Obj?)
    ensures See(op, req, c, Trace(v, path, key)) == Machines.Advance(With(c, base, f1), []) && SameSpot(f, f1)
  {
    hide See, PlaceOf, Open, Close;
    var kind := if v.Obj? then '{' else '[';
    f1 := OpenParent(f, BlockInput, kind);
    var g := NewFrame(BlockInput, kind);
    var inside := c.(frames := base + [f1] + [g]);
    OpenInput(op, c, base, f, kind);
    var inner := if v.Obj? then MembersTrace(v.members, path) else ItemsTrace(v.items, path);
    var g1;
    if v.Obj? {
      g1 := SeeHarmlessMembers(op, req, inside, base + [f1], g, path, v.members);
    } else {
      g1 := SeeIgnoredItems(op, req, inside, base + [f1], g, path, v.items);
    }
    var c2 := c.(frames := base + [f1] + [g1]);
    Bracketed(op, req, c, inside, c2, path, kind, inner);
    CloseIgnored(op, req, c2, base + [f1], g1);
  }

  lemma OpenInput(op: Operation, c: Contract, base: seq<ResultFrame>, f: ResultFrame, kind: char)
    requires On(c, base, f)
    ensures Open(op, c, BlockInput, kind)
            == Machines.Advance(c.(frames := base + [OpenParent(f, BlockInput, kind)] + [NewFrame(BlockInput, kind)]), [])
  {
    hide OpenParent, NewFrame;
    assert WithTop(c, OpenParent(f, BlockInput, kind)).frames == base + [OpenParent(f, BlockInput, kind)];
  }

  lemma {:induction false} SeeToleratedMembers(op: Operation, req: Requirements, c: Contract, base: seq<ResultFrame>, f: ResultFrame, path: string, ms: Members)
      returns (f1: ResultFrame)
    requires On(c, base, f) && Tolerated(op, f.place) && PlaceOf(path) == f.place && path != ""
    ensures See(op, req, c, MembersTrace(ms, path)) == Only(ShortIdentities(ms), Machines.Advance(With(c, base, f1), []))
    ensures SameSpot(f, f1)
    decreases ms
  {
    hide See, PlaceOf, AtLeaf, KeyName, NameOf, Member, Unquote;
    f1 := f;
    match ms {
      case NoMembers => SeeNone(op, req, c);
      case AddMember(front, _, key, _, _, value, _) =>
        var f0 := SeeToleratedMembers(op, req, c, base, f, path, front);
        var c0 := With(c, base, f0);
        var p := FieldPath(path, NameOf(key));
        SeeParts(op, req, c, MembersTrace(front, path), Trace(value, p, NameOf(key)));
        if ShortIdentities(front) {
          ToleratedMember(op, f.place, NameOf(key));
          BelowMember(f0, path, key);
          if IsLeaf(value) {
            SeeMemberLeaf(op, req, c0, base, f0, path, key, value);
            f1 := ToleratedLeaf(op, c0, base, f0, path, key, value);
          } else if Member(f.place, NameOf(key)) == BlockInput {
            f1 := SeeBlockInput(op, req, c0, base, f0, value, p, NameOf(key));
          } else {
            SeeIgnored(op, req, c0, value, p, NameOf(key));
            f1 := f0;
          }
        }
    }
  }

  predicate ItemShort(v: Value) {
    v.Obj? ==> ShortIdentities(v.members)
  }

  lemma SeeToleratedItem(op: Operation, req: Requirements, c: Contract, v: Value, path: string)
    requires |c.frames| > 0 && !IsLeaf(v) && Tolerated(op, PlaceOf(path)) && path != ""
    ensures See(op, req, c, Trace(v, path, "")) == Only(ItemShort(v), Machines.Advance(c, []))
  {
    hide See, PlaceOf, Open, Close, ShortIdentities;
    var place := PlaceOf(path);
    var kind := if v.Obj? then '{' else '[';
    var g := NewFrame(place, kind);
    OpenFunction(op, c, place, kind);
    var inside := c.(frames := c.frames + [g]);
    var inner := if v.Obj? then MembersTrace(v.members, path) else ItemsTrace(v.items, path);
    var g1;
    if v.Obj? {
      g1 := SeeToleratedMembers(op, req, inside, c.frames, g, path, v.members);
      if !ShortIdentities(v.members) {
        BracketRejects(op, req, c, inside, path, kind, inner);
      }
    } else {
      ItemPlace(path);
      assert Item(place) == Elsewhere;
      g1 := SeeEmptyItems(op, req, inside, c.frames, g, path, v.items);
    }
    if ItemShort(v) {
      var c2 := With(c, c.frames, g1);
      Bracketed(op, req, c, inside, c2, path, kind, inner);
      CloseToolCalls(op, req, c2, c.frames, g1);
      assert c.(frames := c.frames) == c;
    }
  }

  lemma {:induction false} SeeToleratedItems(op: Operation, req: Requirements, c: Contract, base: seq<ResultFrame>, t: ResultFrame, path: string, items: Items)
    requires On(c, base, t) && t.place in {Output, Content} && Tolerated(op, Item(t.place)) && PlaceOf(path) == t.place
    ensures See(op, req, c, ItemsTrace(items, path)) == Only(ItemsShort(items), Machines.Advance(c, []))
    decreases items
  {
    hide See, PlaceOf, AtLeaf, ShortIdentities, Trace, LeafValue, LeafKind, LeafOverflow;
    match items {
      case NoItems => SeeNone(op, req, c);
      case AddItem(before, _, value, _) =>
        SeeToleratedItems(op, req, c, base, t, path, before);
        var p := ItemPath(path);
        ItemsTraceGrows(items, path);
        SeeParts(op, req, c, ItemsTrace(before, path), Trace(value, p, ""));
        ItemsPlace(path, t.place);
        assert Tolerated(op, Item(t.place));
        if ItemsShort(before) {
          if IsLeaf(value) {
            SeeLeaf(op, req, c, value, p, "");
            LeafUnnoticed(op, c, base, t, Item(t.place), LeafValue(value, p), LeafKind(value), LeafOverflow(value, p));
          } else {
            SeeToleratedItem(op, req, c, value, p);
          }
        }
    }
  }

  function Flagged(c: Contract, place: Place): Contract {
    c.(output := c.output || place == Output, content := c.content || place == Content)
  }

  lemma OpenTolerated(op: Operation, c: Contract, place: Place)
    requires |c.frames| > 0 && place in {Output, Content}
    ensures Open(op, c, place, '[') == Machines.Advance(Flagged(c, place).(frames := c.frames + [NewFrame(place, '[')]), [])
  {
    OpenParentSame(Top(c), place, '[');
    hide OpenParent, NewFrame;
    assert WithTop(c, Top(c)).frames == c.frames;
  }

  /** An array whose items another operation would judge. */
  lemma SeeTolerated(op: Operation, req: Requirements, c: Contract, v: Value, path: string, key: string)
    requires |c.frames| > 0 && v.Arr? && PlaceOf(path) in {Output, Content} && Tolerated(op, Item(PlaceOf(path)))
    ensures See(op, req, c, Trace(v, path, key)) == Only(ItemsShort(v.items), Machines.Advance(Flagged(c, PlaceOf(path)), []))
  {
    hide See, PlaceOf, Open, Close, ItemsShort;
    var place := PlaceOf(path);
    var t := NewFrame(place, '[');
    OpenTolerated(op, c, place);
    var inside := Flagged(c, place).(frames := c.frames + [t]);
    SeeToleratedItems(op, req, inside, c.frames, t, path, v.items);
    if ItemsShort(v.items) {
      Bracketed(op, req, c, inside, inside, path, '[', ItemsTrace(v.items, path));
      CloseToolCalls(op, req, inside, c.frames, t);
      assert Flagged(c, place).(frames := c.frames) == Flagged(c, place);
    } else {
      BracketRejects(op, req, c, inside, path, '[', ItemsTrace(v.items, path));
    }
  }

  // ---- Parts of an output item --------------------------------------------------------------

  const PART_TEXTS: set<string> := {"text", "refusal"}

  function PartFrame(f: ResultFrame, ms: Members): ResultFrame {
    Noted(f, ms).(payload := f.payload || HasString(ms, PART_TEXTS))
  }

  lemma PartMember(key: string)
    ensures Member(OutputPart, key) == if key == "text" then OutputText else if key == "refusal" then OutputRefusal else Elsewhere
  {
  }

  lemma PartPayload(key: string, value: bytes, kind: char)
    ensures IsPayload(Member(OutputPart, key), value, kind) <==> kind == 's' && key in PART_TEXTS
    ensures !IsArguments(Responses, Member(OutputPart, key)) && Member(OutputPart, key) != FinishReason
    ensures Unobserved(Responses, Member(OutputPart, key)) && !ItemMustBeObject(Responses, Member(OutputPart, key))
  {
    PartMember(key);
    hide Member;
  }

  lemma NoteKeepsFlags(f: ResultFrame, payload: bool, arguments: bool, key: string, value: bytes, kind: char)
    ensures Note(f.(payload := payload, arguments := arguments), key, value, kind)
            == Note(f, key, value, kind).(payload := payload, arguments := arguments)
    ensures var g := Note(f, key, value, kind); g.payload == f.payload && g.arguments == f.arguments && g.finished == f.finished
  {
    hide Count;
  }

  lemma OneMoreString(ms: Members, names: set<string>)
    requires ms.AddMember?
    ensures HasString(ms, names) <==> HasString(ms.front, names) || (NameOf(ms.key) in names && ms.value.Str?)
  {
  }

  lemma PartFrameLeaf(f0: ResultFrame, ms: Members, value: bytes)
    requires ms.AddMember? && IsLeaf(ms.value)
    requires Noted(f0, ms) == Note(Noted(f0, ms.front), NameOf(ms.key), value, LeafKind(ms.value))
    ensures LeafFrame(Responses, PartFrame(f0, ms.front), Member(OutputPart, NameOf(ms.key)), NameOf(ms.key), value, LeafKind(ms.value))
            == PartFrame(f0, ms)
  {
    hide NameOf, Note, Noted, Member, HasString, IsPayload, IsArguments;
    var f := PartFrame(f0, ms.front);
    OneMoreString(ms, PART_TEXTS);
    PartPayload(NameOf(ms.key), value, LeafKind(ms.value));
    NoteKeepsFlags(Noted(f0, ms.front), f.payload, Noted(f0, ms.front).arguments, NameOf(ms.key), value, LeafKind(ms.value));
    assert f == Noted(f0, ms.front).(payload := f.payload, arguments := Noted(f0, ms.front).arguments);
  }

  lemma PartLeaf(c: Contract, base: seq<ResultFrame>, f0: ResultFrame, f: ResultFrame, ms: Members, path: string)
    requires ms.AddMember? && IsLeaf(ms.value) && On(c, base, f) && f.place == OutputPart && f == PartFrame(f0, ms.front)
    ensures var p := FieldPath(path, NameOf(ms.key));
      AtLeaf(Responses, c, Member(f.place, NameOf(ms.key)), NameOf(ms.key), LeafValue(ms.value, p), LeafKind(ms.value), LeafOverflow(ms.value, p))
      == Machines.Advance(With(c, base, PartFrame(f0, ms)), [])
  {
    hide NameOf, LeafValue, LeafOverflow, LeafFrame, PartFrame, AtLeaf, Member, ForbiddenLeaf;
    var key := NameOf(ms.key);
    var p := FieldPath(path, key);
    NotedLeaf(f0, ms, path);
    PartFrameLeaf(f0, ms, LeafValue(ms.value, p));
    PartAllows(f, key, LeafValue(ms.value, p), LeafKind(ms.value), LeafOverflow(ms.value, p));
    PartPayload(key, LeafValue(ms.value, p), LeafKind(ms.value));
    QuietLeaf(Responses, c, f, Member(OutputPart, key), key, LeafValue(ms.value, p), LeafKind(ms.value), LeafOverflow(ms.value, p));
    assert WithTop(c, PartFrame(f0, ms)) == With(c, base, PartFrame(f0, ms));
  }

  lemma PartAllows(f: ResultFrame, key: string, value: bytes, kind: char, overflow: bool)
    requires f.place == OutputPart
    ensures !ForbiddenLeaf(Responses, f, Member(OutputPart, key), key, value, kind, overflow)
  {
    PartPayload(key, value, kind);
    hide Member, ValidArguments, Count;
  }

  lemma {:induction false} SeePartMembers(req: Requirements, c: Contract, base: seq<ResultFrame>, f: ResultFrame, path: string, ms: Members)
    requires On(c, base, f) && f.place == OutputPart && PlaceOf(path) == OutputPart && path != ""
    ensures See(Responses, req, c, MembersTrace(ms, path)) == Machines.Advance(With(c, base, PartFrame(f, ms)), [])
    decreases ms
  {
    hide See, PlaceOf, AtLeaf, KeyName, NameOf, Member, PartFrame, Trace;
    match ms {
      case NoMembers =>
        NoPartMembers(f);
        SeeNone(Responses, req, c);
      case AddMember(front, _, key, _, _, value, _) =>
        SeePartMembers(req, c, base, f, path, front);
        var f0 := PartFrame(f, front);
        var c0 := With(c, base, f0);
        PartSpot(f, front);
        var p := FieldPath(path, NameOf(key));
        SeeParts(Responses, req, c, MembersTrace(front, path), Trace(value, p, NameOf(key)));
        BelowMember(f0, path, key);
        if IsLeaf(value) {
          SeeMemberLeaf(Responses, req, c0, base, f0, path, key, value);
          PartLeaf(c0, base, f, f0, ms, path);
        } else {
          PartMember(NameOf(key));
          SeeIgnored(Responses, req, c0, value, p, NameOf(key));
          PartContainer(f, ms);
        }
    }
  }

  lemma NoPartMembers(f: ResultFrame)
    ensures PartFrame(f, NoMembers) == f
  {
    NotedNone(f);
  }

  lemma PartSpot(f: ResultFrame, ms: Members)
    ensures SameSpot(f, PartFrame(f, ms))
  {
    NotedPlace(f, ms);
  }

  lemma PartContainer(f: ResultFrame, ms: Members)
    requires ms.AddMember? && !IsLeaf(ms.value)
    ensures PartFrame(f, ms) == PartFrame(f, ms.front)
  {
    NotedContainer(f, ms);
    hide Noted, NameOf;
  }

  lemma PartFrameIs(f: ResultFrame, ms: Members)
    ensures var g := PartFrame(f, ms);
      SameSpot(f, g) && g.role == StringAt(ms, "type", f.role) && g.payload == (f.payload || HasString(ms, PART_TEXTS))
  {
  }

  lemma ClosePart(req: Requirements, c: Contract, base: seq<ResultFrame>, f: ResultFrame, t: ResultFrame, g: ResultFrame)
    requires c.frames == base + [f] + [t] + [g] && f.place == OutputItem && t.place == OutputContent && g.place == OutputPart
    ensures Close(Responses, req, c)
            == Only(g.payload && g.role in {"output_text", "refusal"}, Machines.Advance(c.(frames := base + [f.(payload := true)] + [t]), []))
  {
    var popped := base + [f] + [t];
    assert c.frames[..|c.frames| - 1] == popped && Top(c) == g;
    assert popped[..|popped| - 1] == base + [f] && (base + [f])[..|base|] == base;
    assert Nearest(popped, OutputItem) == |base|;
    assert popped[|base| := f.(payload := true)] == base + [f.(payload := true)] + [t];
  }

  /** An object or array in the `content` of an output item. */
  lemma SeePart(req: Requirements, c: Contract, base: seq<ResultFrame>, f: ResultFrame, t: ResultFrame, v: Value, path: string)
    requires c.frames == base + [f] + [t] && f.place == OutputItem && t.place == OutputContent
    requires !IsLeaf(v) && PlaceOf(path) == OutputPart && path != ""
    ensures See(Responses, req, c, Trace(v, path, ""))
            == Only(PartComplete(v), Machines.Advance(c.(frames := base + [f.(payload := true)] + [t]), []))
  {
    hide See, PlaceOf, Open, Close, Noted, StringAt, HasString, PartFrame;
    var kind := if v.Obj? then '{' else '[';
    var inner := if v.Obj? then MembersTrace(v.members, path) else ItemsTrace(v.items, path);
    var g := NewFrame(OutputPart, kind);
    OpenQuiet(Responses, c, OutputPart, kind);
    var inside := With(c, c.frames, g);
    var g1 := g;
    if v.Obj? {
      SeePartMembers(req, inside, c.frames, g, path, v.members);
      g1 := PartFrame(g, v.members);
      PartFrameIs(g, v.members);
    } else {
      ItemPlace(path);
      assert Item(OutputPart) == Elsewhere;
      g1 := SeeEmptyItems(Responses, req, inside, c.frames, g, path, v.items);
    }
    var c2 := With(c, c.frames, g1);
    Bracketed(Responses, req, c, inside, c2, path, kind, inner);
    ClosePart(req, c2, base, f, t, g1);
  }

  function WithParts(f: ResultFrame, items: Items): ResultFrame {
    f.(payload := f.payload || HasPart(items))
  }

  lemma SeePartItem(req: Requirements, c: Contract, base: seq<ResultFrame>, f: ResultFrame, t: ResultFrame, path: string, value: Value)
    requires c.frames == base + [f] + [t] && f.place == OutputItem && t.place == OutputContent && PlaceOf(path) == OutputPart && path != ""
    ensures See(Responses, req, c, Trace(value, path, ""))
            == Only(IsLeaf(value) || PartComplete(value),
                    Machines.Advance(c.(frames := base + [f.(payload := f.payload || !IsLeaf(value))] + [t]), []))
  {
    hide See, PlaceOf, AtLeaf, PartComplete, Trace, LeafValue, LeafKind, LeafOverflow;
    if IsLeaf(value) {
      SeeLeaf(Responses, req, c, value, path, "");
      LeafUnnoticed(Responses, c, base + [f], t, OutputPart, LeafValue(value, path), LeafKind(value), LeafOverflow(value, path));
    } else {
      SeePart(req, c, base, f, t, value, path);
    }
  }

  lemma {:induction false} SeePartItems(req: Requirements, c: Contract, base: seq<ResultFrame>, f: ResultFrame, t: ResultFrame, path: string, items: Items)
    requires c.frames == base + [f] + [t] && f.place == OutputItem && t.place == OutputContent && PlaceOf(path) == OutputContent
    ensures See(Responses, req, c, ItemsTrace(items, path))
            == Only(PartsComplete(items), Machines.Advance(c.(frames := base + [WithParts(f, items)] + [t]), []))
    decreases items
  {
    hide See, PlaceOf, PartComplete, Trace, ItemsTrace, IsLeaf, WithParts, PartsComplete;
    match items {
      case NoItems =>
        SeeNoItems(req, c, path);
        NoParts(f);
      case AddItem(before, _, value, _) =>
        SeePartItems(req, c, base, f, t, path, before);
        var p := ItemPath(path);
        ItemsTraceGrows(items, path);
        SeeParts(Responses, req, c, ItemsTrace(before, path), Trace(value, p, ""));
        ItemsPlace(path, OutputContent);
        MoreParts(f, items);
        if PartsComplete(before) {
          var f0 := WithParts(f, before);
          SeePartItem(req, c.(frames := base + [f0] + [t]), base, f0, t, p, value);
        }
    }
  }

  lemma NoParts(f: ResultFrame)
    ensures WithParts(f, NoItems) == f && PartsComplete(NoItems)
  {
  }

  lemma MoreParts(f: ResultFrame, items: Items)
    requires items.AddItem?
    ensures var f0 := WithParts(f, items.before); f0.place == f.place && WithParts(f, items) == f0.(payload := f0.payload || !IsLeaf(items.value))
    ensures PartsComplete(items) <==> PartsComplete(items.before) && (IsLeaf(items.value) || PartComplete(items.value))
  {
    hide PartComplete, IsLeaf;
  }

  lemma SeeNoItems(req: Requirements, c: Contract, path: string)
    ensures See(Responses, req, c, ItemsTrace(NoItems, path)) == Machines.Advance(c, [])
  {
    hide See;
    SeeNone(Responses, req, c);
  }

  /** The array under `content` of an output item. */
  lemma SeeContent(req: Requirements, c: Contract, base: seq<ResultFrame>, f: ResultFrame, v: Value, path: string, key: string)
    requires On(c, base, f) && f.place == OutputItem && v.Arr? && PlaceOf(path) == OutputContent && path != ""
    ensures See(Responses, req, c, Trace(v, path, key))
            == Only(PartsComplete(v.items), Machines.Advance(With(c, base, WithParts(f, v.items)), []))
  {
    hide See, PlaceOf, Open, Close, PartsComplete;
    var t := NewFrame(OutputContent, '[');
    OpenQuiet(Responses, c, OutputContent, '[');
    var inside := c.(frames := c.frames + [t]);
    SeePartItems(req, inside, base, f, t, path, v.items);
    if PartsComplete(v.items) {
      var f1 := WithParts(f, v.items);
      var c2 := c.(frames := base + [f1] + [t]);
      Bracketed(Responses, req, c, inside, c2, path, '[', ItemsTrace(v.items, path));
      CloseIgnored(Responses, req, c2, base + [f1], t);
    } else {
      BracketRejects(Responses, req, c, inside, path, '[', ItemsTrace(v.items, path));
    }
  }

  // ---- Members of a unit ------------------------------------------------------------------------

  const BLOCK_TEXTS: set<string> := {"text", "thinking", "data"}

  function UnitPlace(op: Operation): Place {
    if op == Responses then OutputItem else Block
  }

  predicate UnitPayload(op: Operation, ms: Members) {
    if op == Responses then HasContent(ms) else HasString(ms, BLOCK_TEXTS)
  }

  predicate UnitArguments(op: Operation, ms: Members) {
    if op == Responses then HasMember(ms, "arguments") else HasInput(ms)
  }

  function UnitFrame(op: Operation, f: ResultFrame, ms: Members): ResultFrame {
    Noted(f, ms).(payload := f.payload || UnitPayload(op, ms), arguments := f.arguments || UnitArguments(op, ms))
  }

  predicate UnitMemberGood(op: Operation, key: bytes, value: Value) {
    IdentityFits(key, value)
    && (op == Responses ==> ArgumentFits(Chat, key, value) && (NameOf(key) == "content" && value.Arr? ==> PartsComplete(value.items)))
  }

  /** What a member adds to the payload and to the arguments. */
  predicate AddsPayload(op: Operation, key: bytes, value: Value) {
    if op == Responses then
      (NameOf(key) == "content" && value.Arr? && HasPart(value.items))
      || (NameOf(key) == "encrypted_content" && value.Str? && Shown(value.body) != "")
    else NameOf(key) in BLOCK_TEXTS && value.Str?
  }

  predicate AddsArguments(op: Operation, key: bytes, value: Value) {
    if op == Responses then NameOf(key) == "arguments" else NameOf(key) == "input" && value.Obj?
  }

  lemma UnitGrows(op: Operation, ms: Members)
    requires ms.AddMember?
    ensures UnitGood(op, ms) <==> UnitGood(op, ms.front) && UnitMemberGood(op, ms.key, ms.value)
    ensures UnitPayload(op, ms) <==> UnitPayload(op, ms.front) || AddsPayload(op, ms.key, ms.value)
    ensures UnitArguments(op, ms) <==> UnitArguments(op, ms.front) || AddsArguments(op, ms.key, ms.value)
  {
    hide NameOf, Unquote, ValidArguments, PartsComplete, HasPart, Shown;
  }

  lemma ItemMember(key: string)
    ensures Member(OutputItem, key) == if key == "arguments" then OutputArguments else if key == "encrypted_content" then OutputEncrypted
                                       else if key == "content" then OutputContent else Elsewhere
  {
  }

  lemma BlockMember(key: string)
    ensures Member(Block, key) == if key == "text" then BlockText else if key == "thinking" then BlockThinking
                                  else if key == "data" then BlockData else if key == "input" then BlockInput else Elsewhere
  {
  }

  lemma ItemForbids(f: ResultFrame, key: string, value: bytes, kind: char, overflow: bool)
    requires f.place == OutputItem
    ensures ForbiddenLeaf(Responses, f, Member(OutputItem, key), key, value, kind, overflow)
            <==> OversizedIdentity(f, key, value, kind, overflow) || (key == "arguments" && (kind != 's' || !ValidArguments(value)))
    ensures Unobserved(Responses, Member(OutputItem, key)) && (IsArguments(Responses, Member(OutputItem, key)) <==> key == "arguments")
    ensures IsPayload(Member(OutputItem, key), value, kind) <==> kind == 's' && key == "encrypted_content" && value != ""
    ensures Member(OutputItem, key) != FinishReason
  {
    ItemMember(key);
    hide Member, ValidArguments, OversizedIdentity, Count;
  }

  lemma BlockForbids(f: ResultFrame, key: string, value: bytes, kind: char, overflow: bool)
    requires f.place == Block
    ensures ForbiddenLeaf(Messages, f, Member(Block, key), key, value, kind, overflow) <==> OversizedIdentity(f, key, value, kind, overflow)
    ensures Unobserved(Messages, Member(Block, key)) && !IsArguments(Messages, Member(Block, key))
    ensures IsPayload(Member(Block, key), value, kind) <==> kind == 's' && key in BLOCK_TEXTS
    ensures Member(Block, key) != FinishReason
  {
    BlockMember(key);
    hide Member, ValidArguments, OversizedIdentity, Count;
  }

  /** Either kind of unit, as far as a leaf goes. */
  lemma UnitForbids(op: Operation, f: ResultFrame, key: string, value: bytes, kind: char, overflow: bool)
    requires op != Chat && f.place == UnitPlace(op)
    ensures ForbiddenLeaf(op, f, Member(f.place, key), key, value, kind, overflow)
            <==> OversizedIdentity(f, key, value, kind, overflow)
                 || (op == Responses && key == "arguments" && (kind != 's' || !ValidArguments(value)))
    ensures Unobserved(op, Member(f.place, key)) && Member(f.place, key) != FinishReason
    ensures IsArguments(op, Member(f.place, key)) <==> op == Responses && key == "arguments"
    ensures IsPayload(Member(f.place, key), value, kind)
            <==> kind == 's' && if op == Responses then key == "encrypted_content" && value != "" else key in BLOCK_TEXTS
  {
    hide ForbiddenLeaf, IsPayload, IsArguments, Member, OversizedIdentity, ValidArguments;
    if op == Responses { ItemForbids(f, key, value, kind, overflow); } else { BlockForbids(f, key, value, kind, overflow); }
  }

  /** The text of a leaf, as far as it matters. */
  lemma UnitLeafValue(op: Operation, path: string, key: bytes, v: Value)
    requires op != Chat && IsLeaf(v) && PlaceOf(path) == UnitPlace(op) && path != ""
    ensures var k := NameOf(key);
      var value := LeafValue(v, FieldPath(path, k));
      (op == Responses && k == "encrypted_content" && v.Str? ==> value == Shown(v.body))
      && (op == Responses && k == "arguments" && v.Str? ==> value == if |v.body| <= MAX_ARGUMENTS then Unquote(v.body) else "\0")
  {
    var k := NameOf(key);
    var p := FieldPath(path, k);
    hide PlaceOf, NameOf, StringLimit, Unquote;
    if op == Responses && k == "encrypted_content" { EncryptedLimit(path); }
    if op == Responses && k == "arguments" && v.Str? {
      BelowMember(NewFrame(OutputItem, '{'), path, key);
      ItemMember(k);
      OutputLimit(p);
      ArgumentsValue(v, p);
    }
  }

  lemma EncryptedLimit(path: string)
    ensures StringLimit(FieldPath(path, "encrypted_content"), false) == MAX_TOKEN
  {
    var p := FieldPath(path, "encrypted_content");
    assert p[|p| - 1] == 't';
    var suffix := ".function.arguments";
    if |p| >= |suffix| { assert p[|p| - |suffix|..][|suffix| - 1] == p[|p| - 1]; }
    LiteralsEndInS();
  }

  lemma OutputLimit(path: string)
    requires PlaceOf(path) == OutputArguments
    ensures StringLimit(path, false) == MAX_ARGUMENTS
  {
    hide PlaceOf, EndsWith;
    Recognised(path, OutputArguments);
    hide PathOf;
    SpelledOutputArguments();
  }

  lemma UnitFrameLeaf(op: Operation, f0: ResultFrame, ms: Members, place: Place, value: bytes)
    requires ms.AddMember? && IsLeaf(ms.value) && op != Chat && place != FinishReason
    requires Noted(f0, ms) == Note(Noted(f0, ms.front), NameOf(ms.key), value, LeafKind(ms.value))
    requires IsPayload(place, value, LeafKind(ms.value)) <==> AddsPayload(op, ms.key, ms.value)
    requires IsArguments(op, place) <==> AddsArguments(op, ms.key, ms.value)
    ensures LeafFrame(op, UnitFrame(op, f0, ms.front), place, NameOf(ms.key), value, LeafKind(ms.value)) == UnitFrame(op, f0, ms)
  {
    hide NameOf, Note, Noted, UnitPayload, UnitArguments, AddsPayload, AddsArguments, IsPayload, IsArguments;
    var f := UnitFrame(op, f0, ms.front);
    UnitGrows(op, ms);
    NoteKeepsFlags(Noted(f0, ms.front), f.payload, f.arguments, NameOf(ms.key), value, LeafKind(ms.value));
  }

  lemma UnitLeafGood(op: Operation, key: bytes, v: Value, value: bytes)
    requires op != Chat && IsLeaf(v)
    requires op == Responses && NameOf(key) == "arguments" && v.Str? ==> value == (if |v.body| <= MAX_ARGUMENTS then Unquote(v.body) else "\0")
    requires op == Responses && NameOf(key) == "encrypted_content" && v.Str? ==> value == Shown(v.body)
    ensures UnitMemberGood(op, key, v)
            <==> IdentityFits(key, v) && !(op == Responses && NameOf(key) == "arguments" && (LeafKind(v) != 's' || !ValidArguments(value)))
    ensures (LeafKind(v) == 's' && if op == Responses then NameOf(key) == "encrypted_content" && value != "" else NameOf(key) in BLOCK_TEXTS)
            <==> AddsPayload(op, key, v)
    ensures AddsArguments(op, key, v) <==> op == Responses && NameOf(key) == "arguments"
  {
    ZeroIsNoObject();
    hide NameOf, ValidArguments, Unquote, Shown, IdentityFits;
  }

  lemma UnitLeaf(op: Operation, c: Contract, base: seq<ResultFrame>, f0: ResultFrame, f: ResultFrame, ms: Members, path: string)
    requires op != Chat && ms.AddMember? && IsLeaf(ms.value) && On(c, base, f) && f.place == UnitPlace(op) && f == UnitFrame(op, f0, ms.front)
    requires PlaceOf(path) == f.place && path != ""
    ensures var p := FieldPath(path, NameOf(ms.key));
      AtLeaf(op, c, Member(f.place, NameOf(ms.key)), NameOf(ms.key), LeafValue(ms.value, p), LeafKind(ms.value), LeafOverflow(ms.value, p))
      == Only(UnitMemberGood(op, ms.key, ms.value), Machines.Advance(With(c, base, UnitFrame(op, f0, ms)), []))
  {
    hide PlaceOf, NameOf, LeafValue, LeafOverflow, LeafFrame, UnitFrame, AtLeaf, Member, ForbiddenLeaf, OversizedIdentity, IdentityFits,
      UnitMemberGood, AddsPayload, AddsArguments, IsPayload, IsArguments, ValidArguments, Unquote, Shown, Noted, Note;
    var key := NameOf(ms.key);
    var p := FieldPath(path, key);
    var value, kind, overflow := LeafValue(ms.value, p), LeafKind(ms.value), LeafOverflow(ms.value, p);
    IdentityChecked(f, path, ms.key, ms.value);
    NotedLeaf(f0, ms, path);
    UnitLeafValue(op, path, ms.key, ms.value);
    UnitForbids(op, f, key, value, kind, overflow);
    UnitLeafGood(op, ms.key, ms.value, value);
    UnitFrameLeaf(op, f0, ms, Member(f.place, key), value);
    QuietLeaf(op, c, f, Member(f.place, key), key, value, kind, overflow);
    assert WithTop(c, UnitFrame(op, f0, ms)) == With(c, base, UnitFrame(op, f0, ms));
  }

  lemma UnitContainerGood(op: Operation, key: bytes, v: Value)
    requires op != Chat && !IsLeaf(v)
    ensures UnitMemberGood(op, key, v)
            <==> op == Responses ==> NameOf(key) != "arguments" && (NameOf(key) == "content" && v.Arr? ==> PartsComplete(v.items))
    ensures AddsPayload(op, key, v) <==> op == Responses && NameOf(key) == "content" && v.Arr? && HasPart(v.items)
    ensures AddsArguments(op, key, v)
            <==> if op == Responses then NameOf(key) == "arguments" else NameOf(key) == "input" && v.Obj?
  {
    hide NameOf, ValidArguments, Unquote, Shown, PartsComplete, HasPart;
  }

  lemma UnitContainerFrame(op: Operation, f0: ResultFrame, ms: Members)
    requires ms.AddMember? && !IsLeaf(ms.value)
    ensures var f := UnitFrame(op, f0, ms.front);
      UnitFrame(op, f0, ms) == f.(payload := f.payload || AddsPayload(op, ms.key, ms.value),
                                  arguments := f.arguments || AddsArguments(op, ms.key, ms.value))
  {
    NotedContainer(f0, ms);
    UnitGrows(op, ms);
    hide Noted, UnitPayload, UnitArguments, AddsPayload, AddsArguments;
  }

  lemma ArgumentsRefused(req: Requirements, c: Contract, v: Value, path: string, key: string)
    requires !IsLeaf(v) && PlaceOf(path) == OutputArguments
    ensures See(Responses, req, c, Trace(v, path, key)).Reject?
  {
    hide See, PlaceOf;
    var kind := if v.Obj? then '{' else '[';
    var inner := if v.Obj? then MembersTrace(v.members, path) else ItemsTrace(v.items, path);
    OpeningRejects(Responses, req, c, path, kind, inner + [Closed(path, kind)]);
    assert [Opened(path, kind)] + (inner + [Closed(path, kind)]) == Trace(v, path, key);
  }

  lemma SeeUnitContainer(op: Operation, req: Requirements, c: Contract, base: seq<ResultFrame>, f: ResultFrame, path: string, key: string, v: Value)
    requires op != Chat && On(c, base, f) && f.place == UnitPlace(op) && !IsLeaf(v) && path != "" && PlaceOf(path) == Member(f.place, key)
    ensures See(op, req, c, Trace(v, path, key))
            == Only(op == Responses ==> key != "arguments" && (key == "content" && v.Arr? ==> PartsComplete(v.items)),
                    Machines.Advance(With(c, base, f.(payload := f.payload || (op == Responses && key == "content" && v.Arr? && HasPart(v.items)),
                                                      arguments := f.arguments || (op == Messages && key == "input" && v.Obj?))), []))
  {
    hide See, PlaceOf, Member, Trace, PartsComplete, HasPart;
    assert With(c, base, f) == c;
    if op == Responses {
      ItemMember(key);
      if key == "arguments" {
        ArgumentsRefused(req, c, v, path, key);
      } else if key == "content" && v.Arr? {
        SeeContent(req, c, base, f, v, path, key);
      } else if key == "content" {
        SeePlainObject(op, req, c, v, path, key);
      } else {
        SeeIgnored(op, req, c, v, path, key);
      }
    } else {
      BlockMember(key);
      if key == "input" {
        var _ := SeeBlockInput(op, req, c, base, f, v, path, key);
      } else {
        SeeIgnored(op, req, c, v, path, key);
      }
    }
  }

  lemma SeeUnitMember(op: Operation, req: Requirements, c: Contract, base: seq<ResultFrame>, f0: ResultFrame, f: ResultFrame, path: string, ms: Members)
    requires op != Chat && ms.AddMember? && On(c, base, f) && f.place == UnitPlace(op) && f == UnitFrame(op, f0, ms.front)
    requires PlaceOf(path) == f.place && path != ""
    ensures var p := FieldPath(path, NameOf(ms.key));
      See(op, req, c, Trace(ms.value, p, NameOf(ms.key)))
      == Only(UnitMemberGood(op, ms.key, ms.value), Machines.Advance(With(c, base, UnitFrame(op, f0, ms)), []))
  {
    hide See, PlaceOf, AtLeaf, KeyName, NameOf, Member, UnitFrame, UnitMemberGood, AddsPayload, AddsArguments, Trace, PartsComplete, HasPart;
    BelowMember(f, path, ms.key);
    if IsLeaf(ms.value) {
      SeeMemberLeaf(op, req, c, base, f, path, ms.key, ms.value);
      UnitLeaf(op, c, base, f0, f, ms, path);
    } else {
      UnitContainerGood(op, ms.key, ms.value);
      UnitContainerFrame(op, f0, ms);
      SeeUnitContainer(op, req, c, base, f, FieldPath(path, NameOf(ms.key)), NameOf(ms.key), ms.value);
    }
  }

  lemma NoUnitMembers(op: Operation, f: ResultFrame)
    ensures UnitFrame(op, f, NoMembers) == f && UnitGood(op, NoMembers)
  {
    NotedNone(f);
  }

  lemma UnitSpot(op: Operation, f: ResultFrame, ms: Members)
    ensures SameSpot(f, UnitFrame(op, f, ms))
  {
    NotedPlace(f, ms);
  }

  lemma {:induction false} SeeUnitMembers(op: Operation, req: Requirements, c: Contract, base: seq<ResultFrame>, f: ResultFrame, path: string, ms: Members)
    requires op != Chat && On(c, base, f) && f.place == UnitPlace(op) && PlaceOf(path) == f.place && path != ""
    ensures See(op, req, c, MembersTrace(ms, path)) == Only(UnitGood(op, ms), Machines.Advance(With(c, base, UnitFrame(op, f, ms)), []))
    decreases ms
  {
    hide See, PlaceOf, KeyName, NameOf, UnitFrame, UnitGood, UnitMemberGood, Trace;
    match ms {
      case NoMembers =>
        NoUnitMembers(op, f);
        SeeNone(op, req, c);
      case AddMember(front, _, key, _, _, value, _) =>
        SeeUnitMembers(op, req, c, base, f, path, front);
        UnitGrows(op, ms);
        UnitSpot(op, f, front);
        var p := FieldPath(path, NameOf(key));
        SeeParts(op, req, c, MembersTrace(front, path), Trace(value, p, NameOf(key)));
        if UnitGood(op, front) {
          var f0 := UnitFrame(op, f, front);
          SeeUnitMember(op, req, With(c, base, f0), base, f, f0, path, ms);
        }
    }
  }

  // ---- A whole unit -------------------------------------------------------------------------------

  /** One unit: its call is recorded and counted. */
  function Take(op: Operation, req: Requirements, c: Contract, ms: Members): Verdict {
    if !UnitComplete(op, req, ms) then Machines.Reject
    else
      match RecordAll(c, UnitCalls(op, ms))
      case Reject => Machines.Reject
      case Advance(c1, _) => Machines.Advance(c1.(tools := c1.tools + |UnitCalls(op, ms)|), [])
  }

  lemma UnitFrameIs(op: Operation, ms: Members)
    ensures var g := UnitFrame(op, NewFrame(UnitPlace(op), '{'), ms);
      g.place == UnitPlace(op) && g.payload == UnitPayload(op, ms) && g.arguments == UnitArguments(op, ms) && g.name == StringAt(ms, "name", "")
      && g.id == StringAt(ms, "id", "") && g.callId == StringAt(ms, "call_id", "") && g.role == StringAt(ms, "type", "")
  {
  }

  /** The end of a unit, from what its frame holds. */
  function CloseUnit(op: Operation, req: Requirements, c: Contract, f: ResultFrame): Verdict {
    if op == Responses then CloseOutputItem(req, c, f) else CloseBlock(req, c, f)
  }

  lemma CloseUnitIs(op: Operation, req: Requirements, c: Contract, f: ResultFrame, ms: Members)
    requires op != Chat && UnitGood(op, ms)
    requires f.payload == UnitPayload(op, ms) && f.arguments == UnitArguments(op, ms) && f.name == StringAt(ms, "name", "")
    requires f.id == StringAt(ms, "id", "") && f.callId == StringAt(ms, "call_id", "") && f.role == StringAt(ms, "type", "")
    ensures CloseUnit(op, req, c, f) == Take(op, req, c, ms)
  {
    hide CloseOutputItem, CloseBlock, Take, UnitGood, UnitPayload, UnitArguments, StringAt;
    if op == Responses { CloseItemIs(req, c, f, ms); } else { CloseBlockIs(req, c, f, ms); }
  }

  lemma CloseItemIs(req: Requirements, c: Contract, f: ResultFrame, ms: Members)
    requires UnitGood(Responses, ms) && f.payload == UnitPayload(Responses, ms) && f.arguments == UnitArguments(Responses, ms)
    requires f.name == StringAt(ms, "name", "") && f.callId == StringAt(ms, "call_id", "") && f.role == StringAt(ms, "type", "")
    ensures CloseOutputItem(req, c, f) == Take(Responses, req, c, ms)
  {
    hide ItemGood, StringAt, HasContent, HasMember, RecordTool, AcceptsTool, RecordAll;
    RecordAllOne(c, f.callId);
    RecordAllNothing(c);
    assert c.(tools := c.tools + 0) == c;
  }

  lemma CloseBlockIs(req: Requirements, c: Contract, f: ResultFrame, ms: Members)
    requires UnitGood(Messages, ms) && f.payload == UnitPayload(Messages, ms) && f.arguments == UnitArguments(Messages, ms)
    requires f.name == StringAt(ms, "name", "") && f.id == StringAt(ms, "id", "") && f.role == StringAt(ms, "type", "")
    ensures CloseBlock(req, c, f) == Take(Messages, req, c, ms)
  {
    hide ShortIdentities, StringAt, HasString, HasInput, RecordTool, AcceptsTool, RecordAll;
    RecordAllOne(c, f.id);
    RecordAllNothing(c);
    assert c.(tools := c.tools + 0) == c;
  }

  lemma CloseUnitFrame(op: Operation, req: Requirements, c: Contract, f: ResultFrame)
    requires op != Chat && f.place == UnitPlace(op)
    ensures Close(op, req, With(c, c.frames, f)) == CloseUnit(op, req, c, f)
  {
    hide CloseOutputItem, CloseBlock;
    var c2 := With(c, c.frames, f);
    assert c2.frames[..|c2.frames| - 1] == c.frames;
    assert c2.(frames := c.frames) == c;
  }

  lemma SeeUnit(op: Operation, req: Requirements, c: Contract, v: Value, path: string)
    requires op != Chat && |c.frames| > 0 && v.Obj? && PlaceOf(path) == UnitPlace(op) && path != ""
    ensures See(op, req, c, Trace(v, path, "")) == Take(op, req, c, v.members)
  {
    hide See, PlaceOf, Open, Close, UnitFrame, UnitGood, Take, NewFrame, CloseUnit;
    var ms := v.members;
    var g := NewFrame(UnitPlace(op), '{');
    OpenUnit(op, c);
    UnitFrameIs(op, ms);
    NewUnit(op);
    var inside := With(c, c.frames, g);
    SeeUnitMembers(op, req, inside, c.frames, g, path, ms);
    CompleteUnitIsGood(op, req, c, ms);
    if UnitGood(op, ms) {
      var g1 := UnitFrame(op, g, ms);
      Bracketed(op, req, c, inside, With(c, c.frames, g1), path, '{', MembersTrace(ms, path));
      CloseUnitFrame(op, req, c, g1);
      CloseUnitIs(op, req, c, g1, ms);
    } else {
      BracketRejects(op, req, c, inside, path, '{', MembersTrace(ms, path));
    }
  }

  lemma OpenUnit(op: Operation, c: Contract)
    requires |c.frames| > 0
    ensures Open(op, c, UnitPlace(op), '{') == Machines.Advance(With(c, c.frames, NewFrame(UnitPlace(op), '{')), [])
  {
    OpenQuiet(op, c, UnitPlace(op), '{');
  }

  lemma NewUnit(op: Operation)
    ensures NewFrame(UnitPlace(op), '{').place == UnitPlace(op)
  {
  }

  lemma CompleteUnitIsGood(op: Operation, req: Requirements, c: Contract, ms: Members)
    ensures !UnitGood(op, ms) ==> Take(op, req, c, ms).Reject?
  {
  }

  lemma UnitMustBeObject(op: Operation, req: Requirements, c: Contract, v: Value, path: string)
    requires op != Chat && |c.frames| > 0 && !v.Obj? && PlaceOf(path) == UnitPlace(op)
    ensures See(op, req, c, Trace(v, path, "")).Reject?
  {
    hide See, PlaceOf;
    if IsLeaf(v) {
      SeeLeaf(op, req, c, v, path, "");
    } else {
      OpeningRejects(op, req, c, path, '[', ItemsTrace(v.items, path) + [Closed(path, '[')]);
      assert [Opened(path, '[')] + (ItemsTrace(v.items, path) + [Closed(path, '[')]) == Trace(v, path, "");
    }
  }

  // ---- All units ----------------------------------------------------------------------------------

  function TakeAll(op: Operation, req: Requirements, c: Contract, units: seq<Members>): Verdict {
    if |units| == 0 then Machines.Advance(c, [])
    else
      match TakeAll(op, req, c, units[..|units| - 1])
      case Reject => Machines.Reject
      case Advance(c1, _) => Take(op, req, c1, units[|units| - 1])
  }

  lemma TakeFrames(op: Operation, req: Requirements, c: Contract, ms: Members, frames: seq<ResultFrame>)
    ensures Take(op, req, c.(frames := frames), ms) == WithFrames(Take(op, req, c, ms), frames)
    ensures Take(op, req, c, ms) == WithFrames(Take(op, req, c, ms), c.frames)
  {
    hide UnitComplete, UnitCalls, RecordAll;
    RecordAllFrames(c, UnitCalls(op, ms), frames);
    RecordAllFrames(c, UnitCalls(op, ms), c.frames);
  }

  /** Taking units depends on no frame and changes none. */
  lemma {:induction false} TakeAllFrames(op: Operation, req: Requirements, c: Contract, units: seq<Members>, frames: seq<ResultFrame>)
    ensures TakeAll(op, req, c.(frames := frames), units) == WithFrames(TakeAll(op, req, c, units), frames)
    ensures TakeAll(op, req, c, units) == WithFrames(TakeAll(op, req, c, units), c.frames)
  {
    hide Take;
    if |units| > 0 {
      var front, last := units[..|units| - 1], units[|units| - 1];
      TakeAllFrames(op, req, c, front, frames);
      match TakeAll(op, req, c, front) {
        case Reject =>
        case Advance(c1, _) => TakeFrames(op, req, c1, last, frames);
      }
    }
  }

  lemma {:induction false} SeeUnitItems(op: Operation, req: Requirements, c: Contract, path: string, items: Items)
    requires op != Chat && |c.frames| > 0 && Item(PlaceOf(path)) == UnitPlace(op)
    ensures See(op, req, c, ItemsTrace(items, path)) == Only(AllObjects(items), TakeAll(op, req, c, Objects(items)))
    decreases items
  {
    hide See, PlaceOf, Take, Trace, ItemsTrace;
    match items {
      case NoItems => NoTrace(op, req, c, path);
      case AddItem(before, _, value, _) =>
        SeeUnitItems(op, req, c, path, before);
        var p := ItemPath(path);
        ItemsTraceGrows(items, path);
        SeeParts(op, req, c, ItemsTrace(before, path), Trace(value, p, ""));
        ItemPlace(path);
        TakeAllFrames(op, req, c, Objects(before), c.frames);
        if value.Obj? { assert (Objects(before) + [value.members])[..|Objects(before)|] == Objects(before); }
        if AllObjects(before) && TakeAll(op, req, c, Objects(before)).Advance? {
          var c0 := TakeAll(op, req, c, Objects(before)).next;
          if value.Obj? { SeeUnit(op, req, c0, value, p); } else { UnitMustBeObject(op, req, c0, value, p); }
        }
    }
  }

  lemma NoTrace(op: Operation, req: Requirements, c: Contract, path: string)
    ensures See(op, req, c, ItemsTrace(NoItems, path)) == Machines.Advance(c, [])
  {
    hide See;
    SeeNone(op, req, c);
  }

  function ArrayPlace(op: Operation): Place {
    if op == Responses then Output else Content
  }

  /** The array of units, at the root. */
  lemma SeeUnits(op: Operation, req: Requirements, c: Contract, v: Value, path: string, key: string)
    requires op != Chat && |c.frames| > 0 && v.Arr? && PlaceOf(path) == ArrayPlace(op)
    ensures See(op, req, c, Trace(v, path, key)) == Only(AllObjects(v.items), TakeAll(op, req, Flagged(c, ArrayPlace(op)), Objects(v.items)))
  {
    hide See, PlaceOf, Open, Close, Take, TakeAll, AllObjects, ItemsTrace;
    var t := NewFrame(ArrayPlace(op), '[');
    var flagged := Flagged(c, ArrayPlace(op));
    OpenTolerated(op, c, ArrayPlace(op));
    var inside := flagged.(frames := c.frames + [t]);
    SeeUnitItems(op, req, inside, path, v.items);
    TakeAllFrames(op, req, flagged, Objects(v.items), inside.frames);
    if AllObjects(v.items) && TakeAll(op, req, flagged, Objects(v.items)).Advance? {
      var c2 := TakeAll(op, req, inside, Objects(v.items)).next;
      Bracketed(op, req, c, inside, c2, path, '[', ItemsTrace(v.items, path));
      CloseToolCalls(op, req, c2, c.frames, t);
    } else {
      BracketRejects(op, req, c, inside, path, '[', ItemsTrace(v.items, path));
    }
  }
}
