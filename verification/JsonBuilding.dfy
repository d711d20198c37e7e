/**
  From the scanner to the grammar: whatever the scanner gets through is the text of a
  syntax tree within the limits.
 */
module JsonBuilding {
  // The proof keeps, beside the scanner, the unfinished tree that its input spells so far, and
  // extends it byte by byte.

  import opened GoText
  import opened JsonGrammar
  import opened JsonScanner
  import JsonReading

  // ---- Unfinished trees -------------------------------------------------------------

  /** An open container and what has been read of it, by what was read last. */
  datatype Open =
    | ObjStart(gap: bytes)
    | ObjComma(members: Members, gap: bytes)
    | ObjKey(members: Members, gap: bytes, key: bytes, pre: bytes)
    | ObjColon(members: Members, gap: bytes, key: bytes, pre: bytes, post: bytes)
    | ObjValue(members: Members)
    | ArrStart(gap: bytes)
    | ArrComma(items: Items, gap: bytes)
    | ArrValue(items: Items)

  function Comma(ms: Members): bytes {
    if ms.NoMembers? then "" else ","
  }

  function OpenText(o: Open): bytes {
    match o
    case ObjStart(gap) => "{" + gap
    case ObjComma(ms, gap) => "{" + MembersText(ms) + "," + gap
    case ObjKey(ms, gap, key, pre) => "{" + MembersText(ms) + Comma(ms) + gap + Quoted(key) + pre
    case ObjColon(ms, gap, key, pre, post) => "{" + MembersText(ms) + Comma(ms) + gap + Quoted(key) + pre + ":" + post
    case ObjValue(ms) => "{" + MembersText(ms)
    case ArrStart(gap) => "[" + gap
    case ArrComma(items, gap) => "[" + ItemsText(items) + "," + gap
    case ArrValue(items) => "[" + ItemsText(items)
  }

  function OpensText(opens: seq<Open>): bytes {
    if |opens| == 0 then "" else OpensText(opens[..|opens| - 1]) + OpenText(opens[|opens| - 1])
  }

  function OpenDepth(o: Open): nat {
    match o
    case ObjStart(_) => 0
    case ObjComma(ms, _) => MembersDepth(ms)
    case ObjKey(ms, _, _, _) => MembersDepth(ms)
    case ObjColon(ms, _, _, _, _) => MembersDepth(ms)
    case ObjValue(ms) => MembersDepth(ms)
    case ArrStart(_) => 0
    case ArrComma(items, _) => ItemsDepth(items)
    case ArrValue(items) => ItemsDepth(items)
  }

  predicate GoodMembers(ms: Members) {
    WellFormedMembers(ms) && MembersWithinLimits(ms)
  }

  predicate GoodItems(items: Items) {
    WellFormedItems(items) && ItemsWithinLimits(items)
  }

  function NamesWith(ms: Members, key: bytes): set<bytes> {
    TrackedNames(ms) + (if Tracked(KeyName(key)) then {KeyName(key)} else {})
  }

  /** The scanner's frame for an open container. */
  predicate Matches(f: Frame, o: Open) {
    match o
    case ObjStart(gap) => f.kind == '{' && f.state == 'K' && f.fields == {} && Blank(gap)
    case ObjComma(ms, gap) =>
      f.kind == '{' && f.state == 'k' && f.fields == TrackedNames(ms) && GoodMembers(ms) && !ms.NoMembers? && Blank(gap)
    case ObjKey(ms, gap, key, pre) =>
      f.kind == '{' && f.state == ':' && f.fields == NamesWith(ms, key) && GoodMembers(ms) && Blank(gap)
      && StringBody(key) && KeyName(key) !in TrackedNames(ms) && Blank(pre)
    case ObjColon(ms, gap, key, pre, post) =>
      f.kind == '{' && f.state == 'v' && f.fields == NamesWith(ms, key) && GoodMembers(ms) && Blank(gap)
      && StringBody(key) && KeyName(key) !in TrackedNames(ms) && Blank(pre) && Blank(post)
    case ObjValue(ms) => f.kind == '{' && f.state == ',' && f.fields == TrackedNames(ms) && GoodMembers(ms) && !ms.NoMembers?
    case ArrStart(gap) => f.kind == '[' && f.state == 'V' && Blank(gap)
    case ArrComma(items, gap) => f.kind == '[' && f.state == 'v' && GoodItems(items) && !items.NoItems? && Blank(gap)
    case ArrValue(items) => f.kind == '[' && f.state == ',' && GoodItems(items) && !items.NoItems?
  }

  predicate AllMatch(stack: seq<Frame>, opens: seq<Open>) {
    |stack| == |opens| && |stack| <= MAX_DEPTH
    && (forall i :: 0 <= i < |stack| ==> Matches(stack[i], opens[i]) && i + 1 + OpenDepth(opens[i]) <= MAX_DEPTH)
    && (forall i :: 0 <= i < |stack| - 1 ==> JsonReading.ExpectsValue(stack[i]))
  }

  /** Everything read so far: leading space, the open containers, the complete part and
      the started escape of the current token, and at the end the root and what follows. */
  datatype Story = Story(head: bytes, opens: seq<Open>, lex: bytes, pending: bytes, root: Option<Value>, foot: bytes)

  function StoryText(st: Story, mode: Mode): bytes {
    if st.root.Some? then st.head + Text(st.root.value) + st.foot
    else st.head + OpensText(st.opens) + (if mode == InString then "\"" else "") + st.lex + st.pending
  }

  predicate GoodRoot(v: Value) {
    v.Obj? && WellFormed(v) && WithinLimits(v) && Depth(v) <= MAX_DEPTH
  }

  predicate PendingEscape(s: Scanner, pending: bytes) {
    if s.unicode > 0 then
      !s.escape && s.unicode <= 4 && |pending| == 6 - s.unicode && pending[0] == '\\' && pending[1] == 'u'
      && forall i :: 2 <= i < |pending| ==> IsHex(pending[i])
    else if s.escape then pending == "\\" else pending == ""
  }

  predicate TokenHolds(s: Scanner, text: bytes) {
    var limit := StringLimit(s.scalarPath, s.key);
    |s.token| <= limit && s.overflow == (|text| > limit) && (if s.overflow then |s.token| == limit else s.token == text)
  }

  /** The story agrees with the scanner. */
  predicate Tells(st: Story, s: Scanner) {
    Blank(st.head) &&
    if s.done then
      JsonReading.Quiet(s) && |s.stack| == 0 && st.root.Some? && GoodRoot(st.root.value) && Blank(st.foot)
    else
      st.root.None? && AllMatch(s.stack, st.opens) && s.root == (|s.stack| > 0) && (|s.stack| == 0 ==> s.mode == Between)
      && (|s.stack| > 0 ==> s.stack[0].kind == '{')
      && TellsToken(st, s)
  }

  predicate TellsToken(st: Story, s: Scanner) {
    match s.mode
    case Between =>
      JsonReading.Quiet(s) && st.lex == "" && st.pending == ""
      && (|s.stack| > 0 && s.stack[|s.stack| - 1].kind == '{' && s.stack[|s.stack| - 1].state in {':', 'v'} ==> s.key)
    case InString =>
      |s.stack| > 0 && StringBody(st.lex) && PendingEscape(s, st.pending) && TokenHolds(s, st.lex + st.pending)
      && (if s.key then s.stack[|s.stack| - 1].state in {'K', 'k'} && StringLimit(s.scalarPath, true) == MAX_TOKEN
          else JsonReading.ExpectsValue(s.stack[|s.stack| - 1]))
    case InScalar =>
      |s.stack| > 0 && !s.escape && s.unicode == 0 && st.pending == "" && TokenHolds(s, st.lex)
      && StringLimit(s.scalarPath, s.key) == MAX_TOKEN && JsonReading.ExpectsValue(s.stack[|s.stack| - 1])
  }

  // ---- Putting a value into its container -------------------------------------------------

  predicate Expecting(o: Open) {
    o.ObjColon? || o.ArrStart? || o.ArrComma?
  }

  function Put(o: Open, v: Value): Open
    requires Expecting(o)
  {
    match o
    case ObjColon(ms, gap, key, pre, post) => ObjValue(AddMember(ms, gap, key, pre, post, v, ""))
    case ArrStart(gap) => ArrValue(AddItem(NoItems, gap, v, ""))
    case ArrComma(items, gap) => ArrValue(AddItem(items, gap, v, ""))
  }

  lemma Assoc(a: bytes, b: bytes, c: bytes)
    ensures a + (b + c) == a + b + c
  {
  }

  lemma PutMember(o: Open, v: Value)
    requires o.ObjColon?
    ensures OpenText(Put(o, v)) == OpenText(o) + Text(v)
  {
    hide Text;
    var lead := MembersText(o.members) + Comma(o.members) + o.gap + Quoted(o.key) + o.pre + ":" + o.post;
    var ms := AddMember(o.members, o.gap, o.key, o.pre, o.post, v, "");
    assert MembersText(ms) == lead + Text(v) + "" == lead + Text(v);
    Assoc("{", lead, Text(v));
    assert OpenText(o) == "{" + lead;
  }

  lemma PutItem(o: Open, v: Value)
    requires o.ArrStart? || (o.ArrComma? && !o.items.NoItems?)
    ensures OpenText(Put(o, v)) == OpenText(o) + Text(v)
  {
    hide Text;
    var before := if o.ArrStart? then NoItems else o.items;
    var lead := ItemsText(before) + (if before.NoItems? then "" else ",") + o.gap;
    assert ItemsText(AddItem(before, o.gap, v, "")) == lead + Text(v) + "" == lead + Text(v);
    Assoc("[", lead, Text(v));
    assert OpenText(o) == "[" + lead;
  }

  lemma PutText(o: Open, v: Value)
    requires Expecting(o) && (o.ArrComma? ==> !o.items.NoItems?)
    ensures OpenText(Put(o, v)) == OpenText(o) + Text(v)
  {
    if o.ObjColon? { PutMember(o, v); } else { PutItem(o, v); }
  }

  lemma ExpectingMatches(f: Frame, o: Open)
    requires Matches(f, o) && JsonReading.ExpectsValue(f)
    ensures Expecting(o) && (o.ArrComma? ==> !o.items.NoItems?)
  {
  }

  predicate GoodValue(v: Value) {
    WellFormed(v) && WithinLimits(v)
  }

  lemma AddGoodItem(items: Items, gap: bytes, v: Value)
    requires GoodItems(items) && Blank(gap) && GoodValue(v)
    ensures GoodItems(AddItem(items, gap, v, "")) && ItemsDepth(AddItem(items, gap, v, "")) == Max(ItemsDepth(items), Depth(v))
  {
  }

  lemma PutMatches(f: Frame, o: Open, v: Value)
    requires Matches(f, o) && JsonReading.ExpectsValue(f) && GoodValue(v)
    ensures Expecting(o) && Matches(f.(state := ','), Put(o, v)) && OpenDepth(Put(o, v)) == Max(OpenDepth(o), Depth(v))
  {
    hide Tracked, KeyName, StringBody;
    match o {
      case ObjColon(ms, gap, key, pre, post) =>
        var all := AddMember(ms, gap, key, pre, post, v, "");
        assert WellFormedMembers(all) && MembersWithinLimits(all);
        assert TrackedNames(all) == NamesWith(ms, key);
      case ArrStart(gap) => assert GoodItems(NoItems) && ItemsDepth(NoItems) == 0; AddGoodItem(NoItems, gap, v);
      case ArrComma(items, gap) => AddGoodItem(items, gap, v);
    }
  }

  lemma OpensTextSnoc(opens: seq<Open>, o: Open)
    ensures OpensText(opens + [o]) == OpensText(opens) + OpenText(o)
  {
    assert (opens + [o])[..|opens + [o]| - 1] == opens;
  }

  function SetLast(opens: seq<Open>, o: Open): seq<Open>
    requires |opens| > 0
  {
    opens[..|opens| - 1] + [o]
  }

  lemma OpensTextSetLast(opens: seq<Open>, o: Open, more: bytes)
    requires |opens| > 0 && OpenText(o) == OpenText(opens[|opens| - 1]) + more
    ensures OpensText(SetLast(opens, o)) == OpensText(opens) + more
  {
    hide OpenText;
    OpensTextSnoc(opens[..|opens| - 1], o);
    Assoc(OpensText(opens[..|opens| - 1]), OpenText(opens[|opens| - 1]), more);
  }

  lemma AllMatchSetLast(stack: seq<Frame>, opens: seq<Open>, f: Frame, o: Open)
    requires AllMatch(stack, opens) && |stack| > 0 && Matches(f, o) && |stack| + OpenDepth(o) <= MAX_DEPTH
    ensures AllMatch(SetTop(stack, f), SetLast(opens, o))
  {
  }

  // ---- Single steps -------------------------------------------------------------------------

  /** A value has ended: it joins its container, or becomes the root. */
  lemma ValueJoins(st: Story, s: Scanner, s1: Scanner, v: Value) returns (st1: Story)
    requires Blank(st.head) && !s.done && AllMatch(s.stack, st.opens) && st.root.None? && GoodValue(v)
    requires |s.stack| + Depth(v) <= MAX_DEPTH && (|s.stack| == 0 ==> v.Obj?)
    requires |s.stack| > 0 ==> JsonReading.ExpectsValue(s.stack[|s.stack| - 1]) && s.stack[0].kind == '{'
    requires s1 == ValueDone(s) && JsonReading.Quiet(s) && s.root
    ensures Tells(st1, s1) && StoryText(st1, Between) == st.head + OpensText(st.opens) + Text(v)
  {
    if |s.stack| == 0 {
      st1 := Story(st.head, [], "", "", Some(v), "");
      assert st.head + OpensText(st.opens) + Text(v) == st.head + Text(v) + "";
    } else {
      st1 := ValueJoinsContainer(st, s, v);
    }
  }

  /** The innermost container with the value in it. */
  lemma JoinedTop(stack: seq<Frame>, opens: seq<Open>, v: Value) returns (o: Open)
    requires AllMatch(stack, opens) && GoodValue(v)
    requires |stack| > 0 && |stack| + Depth(v) <= MAX_DEPTH && JsonReading.ExpectsValue(stack[|stack| - 1])
    ensures |opens| > 0 && AllMatch(SetState(stack, ','), SetLast(opens, o))
    ensures OpenText(o) == OpenText(opens[|opens| - 1]) + Text(v)
  {
    hide Matches, Text, OpenText, GoodValue, Depth;
    var f, top := stack[|stack| - 1], opens[|opens| - 1];
    PutMatches(f, top, v);
    ExpectingMatches(f, top);
    PutText(top, v);
    o := Put(top, v);
    AllMatchSetLast(stack, opens, f.(state := ','), o);
  }

  lemma ValueJoinsContainer(st: Story, s: Scanner, v: Value) returns (st1: Story)
    requires Blank(st.head) && !s.done && AllMatch(s.stack, st.opens) && st.root.None? && GoodValue(v)
    requires |s.stack| > 0 && |s.stack| + Depth(v) <= MAX_DEPTH && JsonReading.ExpectsValue(s.stack[|s.stack| - 1])
    requires JsonReading.Quiet(s) && s.root && s.stack[0].kind == '{'
    ensures Tells(st1, s.(stack := SetState(s.stack, ',')))
    ensures StoryText(st1, Between) == st.head + OpensText(st.opens) + Text(v)
  {
    hide AllMatch, Text, OpenText, OpensText, TokenHolds, StringBody, PendingEscape, GoodRoot, GoodValue, Depth, StringLimit;
    var o := JoinedTop(s.stack, st.opens, v);
    st1 := Story(st.head, SetLast(st.opens, o), "", "", None, "");
    OpensTextSetLast(st.opens, o, Text(v));
    Assoc(st.head, OpensText(st.opens), Text(v));
    PlainStory(st1);
  }

  lemma PlainStory(st: Story)
    requires st.root.None? && st.lex == "" && st.pending == ""
    ensures StoryText(st, Between) == st.head + OpensText(st.opens)
  {
  }

  lemma StackBound(stack: seq<Frame>, opens: seq<Open>)
    requires AllMatch(stack, opens)
    ensures |stack| == |opens| <= MAX_DEPTH
  {
  }

  lemma ScalarEnds(st: Story, s: Scanner) returns (st1: Story)
    requires Tells(st, s) && s.mode == InScalar && FinishScalar(s).Advance?
    ensures Tells(st1, FinishScalar(s).next) && StoryText(st1, Between) == StoryText(st, InScalar)
  {
    var v := Lit(st.lex);
    ScalarIsGood(st, s);
    StackBound(s.stack, st.opens);
    hide AllMatch, StringLimit, TokenHolds, GoodValue, GoodRoot, ScalarToken;
    st1 := ValueJoins(st, s.(mode := Between), FinishScalar(s).next, v);
    PlainTokenStory(st);
  }

  lemma ScalarIsGood(st: Story, s: Scanner)
    requires TokenHolds(s, st.lex) && StringLimit(s.scalarPath, s.key) == MAX_TOKEN && FinishScalar(s).Advance?
    ensures GoodValue(Lit(st.lex))
  {
    hide StringLimit;
  }

  /** The open container a blank is read in. */
  function Padded(o: Open, b: char): Open {
    match o
    case ObjStart(gap) => ObjStart(gap + [b])
    case ObjComma(ms, gap) => ObjComma(ms, gap + [b])
    case ObjKey(ms, gap, key, pre) => ObjKey(ms, gap, key, pre + [b])
    case ObjColon(ms, gap, key, pre, post) => ObjColon(ms, gap, key, pre, post + [b])
    case ObjValue(ms) => if ms.AddMember? then ObjValue(ms.(tail := ms.tail + [b])) else o
    case ArrStart(gap) => ArrStart(gap + [b])
    case ArrComma(items, gap) => ArrComma(items, gap + [b])
    case ArrValue(items) => if items.AddItem? then ArrValue(items.(tail := items.tail + [b])) else o
  }

  lemma PaddedMatches(f: Frame, o: Open, b: char)
    requires Matches(f, o) && IsBlank(b)
    ensures Matches(f, Padded(o, b)) && OpenDepth(Padded(o, b)) == OpenDepth(o)
  {
  }

  lemma PaddedText(f: Frame, o: Open, b: char)
    requires Matches(f, o)
    ensures OpenText(Padded(o, b)) == OpenText(o) + [b]
  {
    match o {
      case ObjStart(gap) => assert "{" + (gap + [b]) == "{" + gap + [b];
      case ObjComma(ms, gap) => PadLast("{" + MembersText(ms) + ",", gap, b);
      case ObjKey(ms, gap, key, pre) => PadLast("{" + MembersText(ms) + Comma(ms) + gap + Quoted(key), pre, b);
      case ObjColon(ms, gap, key, pre, post) => PadLast("{" + MembersText(ms) + Comma(ms) + gap + Quoted(key) + pre + ":", post, b);
      case ObjValue(ms) =>
        var lead := MembersText(ms.front) + Comma(ms.front) + ms.gap + Quoted(ms.key) + ms.preColon + ":" + ms.postColon + Text(ms.value);
        PadLast(lead, ms.tail, b);
        PadLast("{", MembersText(ms), b);
      case ArrStart(gap) => PadLast("[", gap, b);
      case ArrComma(items, gap) => PadLast("[" + ItemsText(items) + ",", gap, b);
      case ArrValue(items) =>
        var lead := ItemsText(items.before) + (if items.before.NoItems? then "" else ",") + items.gap + Text(items.value);
        PadLast(lead, items.tail, b);
        PadLast("[", ItemsText(items), b);
    }
  }

  lemma PadLast(lead: bytes, w: bytes, b: char)
    ensures lead + (w + [b]) == lead + w + [b]
  {
  }

  lemma BlankExtends(st: Story, s: Scanner, b: char) returns (st1: Story)
    requires Tells(st, s) && s.mode == Between && IsBlank(b)
    ensures Tells(st1, s) && StoryText(st1, Between) == StoryText(st, Between) + [b]
  {
    hide Matches, Text, OpenText;
    if s.done {
      st1 := st.(foot := st.foot + [b]);
      PadLast(st.head + Text(st.root.value), st.foot, b);
    } else if |s.stack| == 0 {
      st1 := st.(head := st.head + [b]);
    } else {
      var last := |s.stack| - 1;
      var o := Padded(st.opens[last], b);
      PaddedMatches(s.stack[last], st.opens[last], b);
      PaddedText(s.stack[last], st.opens[last], b);
      st1 := st.(opens := SetLast(st.opens, o));
      AllMatchSetLast(s.stack, st.opens, s.stack[last], o);
      assert SetTop(s.stack, s.stack[last]) == s.stack;
      OpensTextSetLast(st.opens, o, [b]);
      PadLast(st.head, OpensText(st.opens), b);
      PlainStory(st);
      PlainStory(st1);
    }
  }

  // ---- Inside a string ------------------------------------------------------------------------

  lemma StringBodyHead(a: bytes, b: bytes, k: nat)
    requires |a| > 0 && StringBody(a) && k == (if a[0] != '\\' then 1 else if a[1] == 'u' then 6 else 2) && k <= |a|
    requires StringBody(a[k..] + b)
    ensures StringBody(a + b)
  {
    var s := a + b;
    assert s[0] == a[0] && (k > 1 ==> s[1] == a[1]);
    assert forall i :: 0 <= i < k ==> s[i] == a[i];
    assert s[k..] == a[k..] + b;
  }

  lemma {:induction false} StringBodyAppend(a: bytes, b: bytes)
    requires StringBody(a) && StringBody(b)
    ensures StringBody(a + b)
    decreases |a|
  {
    if |a| == 0 {
      assert a + b == b;
    } else {
      var k := if a[0] != '\\' then 1 else if a[1] == 'u' then 6 else 2;
      assert k <= |a| && StringBody(a[k..]);
      StringBodyAppend(a[k..], b);
      StringBodyHead(a, b, k);
    }
  }

  lemma TokenExtends(s: Scanner, text: bytes, b: char)
    requires TokenHolds(s, text)
    ensures TokenHolds(Append(s, b), text + [b])
  {
  }

  lemma TokenSame(s: Scanner, s1: Scanner, text: bytes)
    requires TokenHolds(s, text) && s1.token == s.token && s1.overflow == s.overflow && s1.scalarPath == s.scalarPath && s1.key == s.key
    ensures TokenHolds(s1, text)
  {
  }

  /** What a byte inside a string adds: to the complete part, or to a started escape. */
  function Lexed(st: Story, s: Scanner, b: char): Story {
    if s.unicode > 1 || (s.escape && b == 'u') || (s.unicode == 0 && !s.escape && b == '\\')
    then st.(pending := st.pending + [b])
    else st.(lex := st.lex + (st.pending + [b]), pending := "")
  }

  lemma LexedText(st: Story, s: Scanner, b: char)
    ensures Lexed(st, s, b).lex + Lexed(st, s, b).pending == st.lex + st.pending + [b]
  {
  }

  lemma EscapeDone(pending: bytes, b: char)
    requires (pending == "\\" && IsSimpleEscape(b))
             || (|pending| == 5 && pending[0] == '\\' && pending[1] == 'u' && IsHex(b) && forall i :: 2 <= i < 5 ==> IsHex(pending[i]))
    ensures StringBody(pending + [b])
  {
    var p := pending + [b];
    if |pending| == 5 {
      assert p[6..] == "";
    } else {
      assert p[2..] == "";
    }
  }

  lemma PlainByte(b: char)
    requires b != '"' && b != '\\' && b >= ' '
    ensures StringBody([b])
  {
    assert [b][1..] == "";
  }

  lemma AppendRegisters(s: Scanner, b: char, escape: bool, unicode: nat)
    ensures Append(s.(escape := escape, unicode := unicode), b) == Append(s, b).(escape := escape, unicode := unicode)
    ensures Append(s, b) == s.(token := Append(s, b).token, overflow := Append(s, b).overflow)
  {
  }

  lemma LexedBody(st: Story, s: Scanner, b: char)
    requires StringBody(st.lex) && PendingEscape(s, st.pending) && s.mode == InString
    requires StepString(s, b).Advance? && !(b == '"' && s.unicode == 0 && !s.escape)
    ensures StepString(s, b).next.mode == InString && StepString(s, b).next.stack == s.stack
    ensures StepString(s, b).next
            == Append(s, b).(escape := StepString(s, b).next.escape, unicode := StepString(s, b).next.unicode)
    ensures StringBody(Lexed(st, s, b).lex) && PendingEscape(StepString(s, b).next, Lexed(st, s, b).pending)
  {
    hide StringLimit, FinishString, Append;
    AppendRegisters(s, b, false, if s.unicode > 0 then s.unicode - 1 else if s.escape && b == 'u' then 4 else 0);
    AppendRegisters(s, b, true, s.unicode);
    if s.unicode > 0 {
      if s.unicode == 1 { EscapeDone(st.pending, b); StringBodyAppend(st.lex, st.pending + [b]); }
    } else if s.escape {
      if b != 'u' { EscapeDone(st.pending, b); StringBodyAppend(st.lex, st.pending + [b]); }
    } else if b != '\\' {
      PlainByte(b);
      assert st.pending + [b] == [b];
      StringBodyAppend(st.lex, [b]);
    }
  }

  lemma TokenStory(st: Story)
    requires st.root.None?
    ensures StoryText(st, InString) == st.head + OpensText(st.opens) + "\"" + (st.lex + st.pending)
  {
  }

  lemma StringGoesOn(st: Story, s: Scanner, b: char) returns (st1: Story)
    requires Tells(st, s) && s.mode == InString && StepString(s, b).Advance?
    requires !(b == '"' && s.unicode == 0 && !s.escape)
    ensures StepString(s, b).next.mode == InString
    ensures Tells(st1, StepString(s, b).next) && StoryText(st1, InString) == StoryText(st, InString) + [b]
  {
    hide AllMatch, StringLimit, StepString, StringBody, PendingEscape, TokenHolds, Append, GoodRoot;
    st1 := Lexed(st, s, b);
    LexedBody(st, s, b);
    LexedText(st, s, b);
    AppendRegisters(s, b, false, 0);
    var s1 := StepString(s, b).next;
    TokenExtends(s, st.lex + st.pending, b);
    TokenSame(Append(s, b), s1, st.lex + st.pending + [b]);
    TokenStory(st);
    TokenStory(st1);
    PadLast(st.head + OpensText(st.opens) + "\"", st.lex + st.pending, b);
  }

  lemma KeyEnds(st: Story, s: Scanner) returns (st1: Story)
    requires Tells(st, s) && s.mode == InString && s.unicode == 0 && !s.escape && s.key && FinishKey(s).Advance?
    ensures Tells(st1, FinishKey(s).next) && FinishKey(s).next.mode == Between
    ensures StoryText(st1, Between) == StoryText(st, InString) + ['"']
  {
    hide Tracked, KeyName, Matches, OpenText, FinishKey, AllMatch, StringLimit, StringBody, TokenHolds, Unquote;
    var last := |s.stack| - 1;
    TopMatches(s.stack, st.opens);
    var o := st.opens[last];
    var ms := if o.ObjComma? then o.members else NoMembers;
    KeyFrame(s.stack[last], o, ms, st.lex);
    var o1 := ObjKey(ms, o.gap, st.lex, "");
    KeyText(o, o1, ms, st.lex);
    st1 := Story(st.head, SetLast(st.opens, o1), "", "", None, "");
    assert st.lex + st.pending == st.lex;
    KeyName1(s, st.lex);
    KeyTells(st, s, o1, st1);
    OpensTextSetLast(st.opens, o1, Quoted(st.lex));
    PlainStory(st1);
    Assoc(st.head, OpensText(st.opens), Quoted(st.lex));
    QuoteStory(st);
  }

  lemma QuoteStory(st: Story)
    requires st.root.None? && st.pending == ""
    ensures StoryText(st, InString) + ['"'] == st.head + OpensText(st.opens) + Quoted(st.lex)
  {
  }

  lemma TopMatches(stack: seq<Frame>, opens: seq<Open>)
    requires AllMatch(stack, opens) && |stack| > 0
    ensures |opens| == |stack| <= MAX_DEPTH && Matches(stack[|stack| - 1], opens[|stack| - 1])
    ensures |stack| + OpenDepth(opens[|stack| - 1]) <= MAX_DEPTH
  {
  }

  lemma KeyName1(s: Scanner, text: bytes)
    requires TokenHolds(s, text) && StringLimit(s.scalarPath, s.key) == MAX_TOKEN
    ensures (if s.overflow then "" else Unquote(s.token)) == KeyName(text)
  {
  }

  lemma KeyFrame(f: Frame, o: Open, ms: Members, key: bytes)
    requires Matches(f, o) && f.state in {'K', 'k'} && ms == if o.ObjComma? then o.members else NoMembers
    ensures f.kind == '{' && f.fields == TrackedNames(ms) && GoodMembers(ms) && (o.ObjStart? || o.ObjComma?) && Blank(o.gap)
    ensures OpenDepth(o) == MembersDepth(ms) && ms.NoMembers? == o.ObjStart?
  {
  }

  lemma KeyText(o: Open, o1: Open, ms: Members, key: bytes)
    requires if o.ObjStart? then ms == NoMembers else o.ObjComma? && ms == o.members && !ms.NoMembers?
    requires o1 == ObjKey(ms, o.gap, key, "")
    ensures OpenText(o1) == OpenText(o) + Quoted(key)
  {
    var lead := "{" + MembersText(ms) + Comma(ms) + o.gap;
    assert OpenText(o1) == lead + Quoted(key) + "" == lead + Quoted(key);
    assert OpenText(o) == lead;
  }

  lemma KeyTells(st: Story, s: Scanner, o1: Open, st1: Story)
    requires Tells(st, s) && s.mode == InString && s.unicode == 0 && !s.escape && s.key && FinishKey(s).Advance?
    requires o1.ObjKey? && o1.key == st.lex && o1.pre == "" && Blank(o1.gap) && GoodMembers(o1.members)
    requires TrackedNames(o1.members) == s.stack[|s.stack| - 1].fields && MembersDepth(o1.members) == OpenDepth(st.opens[|s.stack| - 1])
    requires s.stack[|s.stack| - 1].kind == '{'
    requires (if s.overflow then "" else Unquote(s.token)) == KeyName(st.lex)
    requires st1 == Story(st.head, SetLast(st.opens, o1), "", "", None, "")
    ensures Tells(st1, FinishKey(s).next) && FinishKey(s).next.mode == Between
  {
    hide Tracked, KeyName, StringBody, Unquote, StoredKey;
    var s1 := FinishKey(s).next;
    var f := s1.stack[|s1.stack| - 1];
    assert Matches(f, o1);
    AllMatchSetLast(s.stack, st.opens, f, o1);
  }

  lemma StringEnds(st: Story, s: Scanner) returns (st1: Story)
    requires Tells(st, s) && s.mode == InString && s.unicode == 0 && !s.escape && FinishString(s).Advance?
    ensures Tells(st1, FinishString(s).next) && FinishString(s).next.mode == Between
    ensures StoryText(st1, Between) == StoryText(st, InString) + ['"']
  {
    hide FinishKey, StringLimit, StringBody, TokenHolds, Unquote;
    if s.key {
      st1 := KeyEnds(st, s);
    } else {
      StackBound(s.stack, st.opens);
      st1 := ValueJoins(st, s.(mode := Between), FinishString(s).next, Str(st.lex));
      QuoteStory(st);
    }
  }

  // ---- Inside a number or literal ------------------------------------------------------------------

  lemma ScalarGoesOn(st: Story, s: Scanner, b: char) returns (st1: Story)
    requires Tells(st, s) && s.mode == InScalar
    ensures Tells(st1, Append(s, b)) && StoryText(st1, InScalar) == StoryText(st, InScalar) + [b]
  {
    hide AllMatch, StringLimit, TokenHolds, Append;
    st1 := st.(lex := st.lex + [b]);
    TokenExtends(s, st.lex, b);
    AppendRegisters(s, b, false, 0);
    PlainTokenStory(st);
    PlainTokenStory(st1);
    PadLast(st.head + OpensText(st.opens), st.lex, b);
  }

  lemma PlainTokenStory(st: Story)
    requires st.root.None? && st.pending == ""
    ensures StoryText(st, InScalar) == st.head + OpensText(st.opens) + st.lex
  {
  }

  // ---- Between tokens --------------------------------------------------------------------------------

  /** The open container after one more byte of punctuation. */
  function Punctuated(o: Open): Open {
    match o
    case ObjValue(ms) => ObjComma(ms, "")
    case ArrValue(items) => ArrComma(items, "")
    case ObjKey(ms, gap, key, pre) => ObjColon(ms, gap, key, pre, "")
    case _ => o
  }

  function AfterPunctuation(f: Frame): char {
    if f.state == ':' then 'v' else if f.kind == '{' then 'k' else 'v'
  }

  lemma PunctuatedMatches(f: Frame, o: Open)
    requires Matches(f, o) && f.state in {',', ':'}
    ensures Matches(f.(state := AfterPunctuation(f)), Punctuated(o)) && OpenDepth(Punctuated(o)) == OpenDepth(o)
  {
  }

  lemma NoTail(a: bytes)
    ensures a + "" == a
  {
  }

  lemma PunctuatedText(f: Frame, o: Open)
    requires Matches(f, o) && f.state in {',', ':'}
    ensures OpenText(Punctuated(o)) == OpenText(o) + [f.state]
  {
    hide MembersText, ItemsText, TrackedNames, NamesWith, GoodMembers, GoodItems, StringBody, KeyName;
    NoTail(OpenText(o) + [f.state]);
  }

  /** A comma or a colon. */
  lemma PunctuationExtends(st: Story, s: Scanner) returns (st1: Story)
    requires Tells(st, s) && s.mode == Between && !s.done && |s.stack| > 0
    requires s.stack[|s.stack| - 1].state in {',', ':'}
    ensures Tells(st1, s.(stack := SetState(s.stack, AfterPunctuation(s.stack[|s.stack| - 1]))))
    ensures StoryText(st1, Between) == StoryText(st, Between) + [s.stack[|s.stack| - 1].state]
  {
    hide Matches, OpenText, AllMatch, StringLimit, TokenHolds, GoodRoot;
    var last := |s.stack| - 1;
    TopMatches(s.stack, st.opens);
    var f := s.stack[last];
    var o := Punctuated(st.opens[last]);
    PunctuatedMatches(f, st.opens[last]);
    PunctuatedText(f, st.opens[last]);
    st1 := st.(opens := SetLast(st.opens, o));
    AllMatchSetLast(s.stack, st.opens, f.(state := AfterPunctuation(f)), o);
    OpensTextSetLast(st.opens, o, [f.state]);
    PlainStory(st);
    PlainStory(st1);
    Assoc(st.head, OpensText(st.opens), [f.state]);
  }

  /** The opening quote of a key or a string value. */
  lemma StringStarts(st: Story, s: Scanner, key: bool, path: string) returns (st1: Story)
    requires Tells(st, s) && s.mode == Between && !s.done && |s.stack| > 0
    requires if key then s.stack[|s.stack| - 1].state in {'K', 'k'} && path == ""
             else JsonReading.ExpectsValue(s.stack[|s.stack| - 1])
    ensures Tells(st1, BeginString(s, key, path)) && StoryText(st1, InString) == StoryText(st, Between) + ['"']
  {
    hide AllMatch, GoodRoot;
    st1 := st;
    PlainStory(st);
    TokenStory(st);
    assert st.head + OpensText(st.opens) + "\"" + ("" + "") == st.head + OpensText(st.opens) + "\"";
  }

  lemma ScalarStarts(st: Story, s: Scanner, b: char) returns (st1: Story)
    requires Tells(st, s) && s.mode == Between && !s.done && |s.stack| > 0 && JsonReading.ExpectsValue(s.stack[|s.stack| - 1])
    ensures var s0 := s.(mode := InScalar, token := "", overflow := false, scalarPath := ValuePath(s.stack));
      Tells(st1, Append(s0, b)) && StoryText(st1, InScalar) == StoryText(st, Between) + [b]
  {
    var s0 := s.(mode := InScalar, token := "", overflow := false, scalarPath := ValuePath(s.stack));
    RootIsOpen(st, s);
    JsonReading.ScalarLimit(s);
    hide AllMatch, GoodRoot, StringLimit, Append, ValuePath;
    PlainStory(st);
    PlainTokenStory(st);
    EmptyToken(s0);
    assert st.head + OpensText(st.opens) + "" == st.head + OpensText(st.opens);
    st1 := ScalarGoesOn(st, s0, b);
  }

  lemma EmptyToken(s: Scanner)
    requires s.token == "" && !s.overflow
    ensures TokenHolds(s, "")
  {
  }

  lemma RootIsOpen(st: Story, s: Scanner)
    requires Tells(st, s) && s.mode == Between && !s.done && |s.stack| > 0
    ensures JsonReading.Inside(s, s.stack)
  {
    hide AllMatch;
  }

  function Opening(kind: char): Open {
    if kind == '{' then ObjStart("") else ArrStart("")
  }

  lemma ContainerStarts(st: Story, s: Scanner, kind: char, path: string) returns (st1: Story)
    requires Tells(st, s) && s.mode == Between && !s.done && |s.stack| < MAX_DEPTH && (kind == '{' || kind == '[')
    requires if |s.stack| == 0 then kind == '{' else JsonReading.ExpectsValue(s.stack[|s.stack| - 1])
    ensures var f := Frame(kind, if kind == '[' then 'V' else 'K', path, "", {});
      Tells(st1, s.(root := true, stack := s.stack + [f]))
    ensures StoryText(st1, Between) == StoryText(st, Between) + [kind]
  {
    hide AllMatch, Matches, OpenText, OpensText, GoodRoot, StringLimit, TokenHolds, StringBody, PendingEscape;
    var f := Frame(kind, if kind == '[' then 'V' else 'K', path, "", {});
    st1 := st.(opens := st.opens + [Opening(kind)]);
    OpeningMatches(kind, path);
    AllMatchPush(s.stack, st.opens, f, Opening(kind));
    PushText(st, kind);
  }

  lemma OpeningMatches(kind: char, path: string)
    requires kind == '{' || kind == '['
    ensures Matches(Frame(kind, if kind == '[' then 'V' else 'K', path, "", {}), Opening(kind)) && OpenDepth(Opening(kind)) == 0
    ensures OpenText(Opening(kind)) == [kind]
  {
  }

  lemma PushText(st: Story, kind: char)
    requires st.root.None? && st.lex == "" && st.pending == "" && (kind == '{' || kind == '[')
    ensures StoryText(st.(opens := st.opens + [Opening(kind)]), Between) == StoryText(st, Between) + [kind]
  {
    hide OpenText;
    OpeningMatches(kind, "");
    OpensTextSnoc(st.opens, Opening(kind));
    PlainStory(st);
    PlainStory(st.(opens := st.opens + [Opening(kind)]));
    Assoc(st.head, OpensText(st.opens), [kind]);
  }

  lemma AllMatchPush(stack: seq<Frame>, opens: seq<Open>, f: Frame, o: Open)
    requires AllMatch(stack, opens) && Matches(f, o) && OpenDepth(o) == 0 && |stack| < MAX_DEPTH
    requires |stack| > 0 ==> JsonReading.ExpectsValue(stack[|stack| - 1])
    ensures AllMatch(stack + [f], opens + [o])
  {
    hide Matches;
  }

  /** The value a closing brace or bracket completes. */
  function Completed(o: Open): Value {
    match o
    case ObjStart(gap) => Obj(NoMembers, gap)
    case ObjValue(ms) => Obj(ms, "")
    case ArrStart(gap) => Arr(NoItems, gap)
    case ArrValue(items) => Arr(items, "")
    case _ => Lit("")
  }

  predicate Closes(f: Frame, b: char) {
    if b == '}' then f.kind == '{' && f.state in {'K', ','} else b == ']' && f.state in {'V', ','} && f.kind == '['
  }

  lemma CompletedIs(f: Frame, o: Open, b: char)
    requires Matches(f, o) && Closes(f, b)
    ensures GoodValue(Completed(o)) && Depth(Completed(o)) == 1 + OpenDepth(o)
    ensures b == '}' ==> Completed(o).Obj?
    ensures Text(Completed(o)) == OpenText(o) + [b]
  {
    hide TrackedNames, NamesWith, StringBody, KeyName;
    match o {
      case ObjStart(gap) => NoTail("{"); assert MembersText(NoMembers) == "" && GoodMembers(NoMembers) && MembersDepth(NoMembers) == 0;
      case ObjValue(ms) => NoTail("{" + MembersText(ms));
      case ArrStart(gap) => NoTail("["); assert ItemsText(NoItems) == "" && GoodItems(NoItems) && ItemsDepth(NoItems) == 0;
      case ArrValue(items) => NoTail("[" + ItemsText(items));
    }
  }

  lemma AllMatchPop(stack: seq<Frame>, opens: seq<Open>)
    requires AllMatch(stack, opens) && |stack| > 0
    ensures AllMatch(stack[..|stack| - 1], opens[..|opens| - 1])
    ensures |stack| > 1 ==> JsonReading.ExpectsValue(stack[|stack| - 2])
  {
    hide Matches;
  }

  lemma ContainerEnds(st: Story, s: Scanner, b: char) returns (st1: Story)
    requires Tells(st, s) && s.mode == Between && !s.done && |s.stack| > 0 && Closes(s.stack[|s.stack| - 1], b)
    ensures Tells(st1, CloseTop(s).next) && StoryText(st1, Between) == StoryText(st, Between) + [b]
  {
    hide AllMatch, Matches, OpenText, Text, GoodValue, Depth, GoodRoot, StringLimit;
    var last := |s.stack| - 1;
    TopMatches(s.stack, st.opens);
    var v := Completed(st.opens[last]);
    CompletedIs(s.stack[last], st.opens[last], b);
    AllMatchPop(s.stack, st.opens);
    var st0 := st.(opens := st.opens[..last]);
    var s0 := s.(stack := s.stack[..last]);
    st1 := ValueJoins(st0, s0, CloseTop(s).next, v);
    PlainStory(st);
    Assoc(OpensText(st.opens[..last]), OpenText(st.opens[last]), [b]);
    Assoc(st.head, OpensText(st.opens), [b]);
    Assoc(st.head, OpensText(st.opens[..last]), Text(v));
  }

  // ---- Every step ----------------------------------------------------------------------------------------

  lemma BetweenExtends(st: Story, s: Scanner, b: char) returns (st1: Story)
    requires Tells(st, s) && s.mode == Between && StepBetween(s, b).Advance?
    ensures Tells(st1, StepBetween(s, b).next)
    ensures StoryText(st1, StepBetween(s, b).next.mode) == StoryText(st, Between) + [b]
  {
    hide Tells, StoryText, SetState, ValuePath, BeginString, Append, CloseTop;
    if IsBlank(b) {
      st1 := BlankExtends(st, s, b);
    } else if |s.stack| == 0 {
      RootStarts(st, s, b);
      st1 := ContainerStarts(st, s, b, ValuePath(s.stack));
    } else {
      TopShape(st, s);
      var top := s.stack[|s.stack| - 1];
      if (top.state == ',' && b == ',') || top.state == ':' {
        st1 := PunctuationExtends(st, s);
      } else if Closes(top, b) {
        st1 := ContainerEnds(st, s, b);
        CloseIsQuiet(s);
      } else if top.state in {'k', 'K'} {
        st1 := StringStarts(st, s, true, "");
        BeginMode(s, true, "");
      } else {
        st1 := ValueStarts(st, s, b);
      }
    }
  }

  lemma RootStarts(st: Story, s: Scanner, b: char)
    requires Tells(st, s) && |s.stack| == 0 && !s.done && StartValue(s, b).Advance?
    ensures b == '{' && !s.root
    ensures StartValue(s, b).next == s.(root := true, stack := s.stack + [Frame('{', 'K', ValuePath(s.stack), "", {})])
  {
  }

  lemma TopShape(st: Story, s: Scanner)
    requires Tells(st, s) && !s.done && |s.stack| > 0
    ensures s.root
    ensures var top := s.stack[|s.stack| - 1];
      (top.kind == '{' && top.state in {'K', 'k', ':', 'v', ','}) || (top.kind == '[' && top.state in {'V', 'v', ','})
  {
    TopMatches(s.stack, st.opens);
    hide AllMatch;
  }

  lemma CloseIsQuiet(s: Scanner)
    requires |s.stack| > 0
    ensures CloseTop(s).next.mode == s.mode
  {
  }

  lemma BeginMode(s: Scanner, key: bool, path: string)
    ensures BeginString(s, key, path).mode == InString
  {
  }

  lemma ValueStarts(st: Story, s: Scanner, b: char) returns (st1: Story)
    requires Tells(st, s) && s.mode == Between && !s.done && |s.stack| > 0 && s.root
    requires JsonReading.ExpectsValue(s.stack[|s.stack| - 1]) && StartValue(s, b).Advance?
    ensures Tells(st1, StartValue(s, b).next)
    ensures StoryText(st1, StartValue(s, b).next.mode) == StoryText(st, Between) + [b]
  {
    hide Tells, StoryText, ValuePath, Append;
    if b == '{' || b == '[' {
      st1 := ContainerStarts(st, s, b, ValuePath(s.stack));
    } else if b == '"' {
      st1 := StringStarts(st, s, false, ValuePath(s.stack));
    } else {
      st1 := ScalarStarts(st, s, b);
      AppendRegisters(s.(mode := InScalar, token := "", overflow := false, scalarPath := ValuePath(s.stack)), b, false, 0);
    }
  }

  lemma StepExtends(st: Story, s: Scanner, b: char) returns (st1: Story)
    requires Tells(st, s) && Step(s, b).Advance?
    ensures Tells(st1, Step(s, b).next) && StoryText(st1, Step(s, b).next.mode) == StoryText(st, s.mode) + [b]
  {
    hide Tells, StoryText, StepBetween, FinishScalar, FinishString, Append;
    match s.mode {
      case Between => st1 := BetweenExtends(st, s, b);
      case InScalar =>
        if IsDelimiter(b) {
          var st0 := ScalarEnds(st, s);
          ScalarIsOver(s);
          st1 := BetweenExtends(st0, FinishScalar(s).next, b);
        } else {
          st1 := ScalarGoesOn(st, s, b);
          AppendRegisters(s, b, false, 0);
        }
      case InString =>
        if b == '"' && s.unicode == 0 && !s.escape {
          st1 := StringEnds(st, s);
        } else {
          st1 := StringGoesOn(st, s, b);
        }
    }
  }

  lemma ScalarIsOver(s: Scanner)
    requires FinishScalar(s).Advance?
    ensures FinishScalar(s).next.mode == Between
  {
  }

  lemma {:induction false} RunTells(text: bytes) returns (st: Story)
    requires Run(START, text).Advance?
    ensures Tells(st, Run(START, text).next) && StoryText(st, Run(START, text).next.mode) == text
    decreases |text|
  {
    hide Step, Tells, StoryText;
    if |text| == 0 {
      st := Story("", [], "", "", None, "");
      StartTells();
    } else {
      var front := text[..|text| - 1];
      var st0 := RunTells(front);
      st := StepExtends(st0, Run(START, front).next, text[|text| - 1]);
    }
  }

  lemma StartTells()
    ensures Tells(Story("", [], "", "", None, ""), START) && StoryText(Story("", [], "", "", None, ""), Between) == ""
  {
  }

  // ---- The theorem ---------------------------------------------------------------------------------------

  /** `text` is the text of a document within the limits. */
  ghost predicate IsAcceptableText(text: bytes) {
    exists d: Document :: Acceptable(d) && DocumentText(d) == text
  }

  lemma AcceptedIsDocument(text: bytes) returns (d: Document)
    requires Accepts(text)
    ensures Acceptable(d) && DocumentText(d) == text
  {
    var s := Run(START, text).next;
    var st := RunTells(text);
    if s.mode == InScalar { StillOpen(st, s); }
    d := Document(st.head, st.root.value, st.foot);
  }

  lemma StillOpen(st: Story, s: Scanner)
    requires Tells(st, s) && s.mode == InScalar
    ensures !FinishedAtEnd(s)
  {
    hide AllMatch, ScalarToken;
  }

  /** The scanner accepts exactly the JSON objects of RFC 8259 that are nested at most 128
      deep, whose numbers and literals have at most 512 bytes, and none of whose objects
      repeats a tracked member name. */
  lemma ScannerIsGrammar(text: bytes)
    ensures Accepts(text) <==> IsAcceptableText(text)
  {
    if Accepts(text) {
      var d := AcceptedIsDocument(text);
    }
    if IsAcceptableText(text) {
      var d: Document :| Acceptable(d) && DocumentText(d) == text;
      JsonReading.ReadDocument(d);
    }
  }
}
