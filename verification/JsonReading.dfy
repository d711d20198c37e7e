/**
  From the grammar to the scanner: on the text of a syntax tree within the limits, the
  scanner gets through and reports exactly the tree's values, in document order.  The proof
  is by induction over the tree: each construct is read from any state that expects it, and
  leaves the frames around it as they were.
 */
module JsonReading {
  import opened GoText
  import opened JsonGrammar
  import opened JsonScanner
  import Machines

  // ---- What a tree reports --------------------------------------------------------

  function NameOf(key: bytes): string {
    StoredKey(KeyName(key))
  }

  function Trace(v: Value, path: string, key: string): seq<Event> {
    match v
    case Lit(token) => [Leaf(path, key, token, if token == "null" then 'n' else 'v', false)]
    case Str(body) =>
      var overflow := |body| > StringLimit(path, false);
      [Leaf(path, key, ObservedString(body, overflow), 's', overflow)]
    case Obj(members, _) => [Opened(path, '{')] + MembersTrace(members, path) + [Closed(path, '{')]
    case Arr(items, _) => [Opened(path, '[')] + ItemsTrace(items, path) + [Closed(path, '[')]
  }

  function MembersTrace(ms: Members, path: string): seq<Event> {
    match ms
    case NoMembers => []
    case AddMember(front, _, key, _, _, value, _) =>
      MembersTrace(front, path) + Trace(value, FieldPath(path, NameOf(key)), NameOf(key))
  }

  function ItemsTrace(items: Items, path: string): seq<Event> {
    match items
    case NoItems => []
    case AddItem(before, _, value, _) => ItemsTrace(before, path) + Trace(value, ItemPath(path), "")
  }

  // ---- States between tokens ---------------------------------------------------------

  predicate Quiet(s: Scanner) {
    s.mode == Between && !s.escape && s.unicode == 0
  }

  /** Between tokens inside the open containers `stack`. */
  predicate Inside(s: Scanner, stack: seq<Frame>) {
    Quiet(s) && s.root && !s.done && s.stack == stack && |stack| > 0
    && (stack[|stack| - 1].kind == '{' && stack[|stack| - 1].state == 'v' ==> s.key)
  }

  predicate ExpectsValue(top: Frame) {
    top.state == 'v' || (top.state == 'V' && top.kind != '{')
  }

  /** A value may start here. */
  predicate Ready(s: Scanner, v: Value) {
    Quiet(s) && !s.done &&
    if |s.stack| == 0 then !s.root && v.Obj?
    else Inside(s, s.stack) && ExpectsValue(s.stack[|s.stack| - 1])
  }

  /** The value that started at `before` has been read. */
  predicate Done(s: Scanner, before: Scanner) {
    Quiet(s) && s.root && s.stack == ValueDone(before).stack && s.done == (|before.stack| == 0)
  }

  /** Where a text leads once a pending number or literal is finished. */
  function Land(s: Scanner, text: bytes): Outcome {
    match Run(s, text)
    case Reject => Machines.Reject
    case Advance(s1, e1) => Machines.Prefixed(e1, Settle(s1))
  }

  lemma LandIsRun(s: Scanner, text: bytes, s1: Scanner, e1: seq<Event>)
    requires Run(s, text) == Machines.Advance(s1, e1) && s1.mode == Between
    ensures Land(s, text) == Machines.Advance(s1, e1)
  {
    assert e1 + [] == e1;
  }

  lemma LandParts(s: Scanner, a: bytes, b: bytes, s1: Scanner, e1: seq<Event>, s2: Scanner, e2: seq<Event>)
    requires Run(s, a) == Machines.Advance(s1, e1) && Land(s1, b) == Machines.Advance(s2, e2)
    ensures Land(s, a + b) == Machines.Advance(s2, e1 + e2)
  {
    Machines.RunParts(Step, s, a, b, s1, e1);
    var r := Run(s1, b);
    match Settle(r.next) {
      case Reject =>
      case Advance(s3, e3) => assert e1 + (r.events + e3) == e1 + r.events + e3;
    }
  }

  lemma StepSettled(s: Scanner, s2: Scanner, e2: seq<Event>, d: char)
    requires Settle(s) == Machines.Advance(s2, e2) && s2.mode == Between && IsDelimiter(d)
    ensures Step(s, d) == Machines.Prefixed(e2, StepBetween(s2, d))
  {
    if s.mode != InScalar { Machines.PrefixedNone(StepBetween(s2, d)); }
  }

  /** A delimiter after a value acts on the settled state. */
  lemma LandDelimiter(s: Scanner, text: bytes, s2: Scanner, events: seq<Event>, d: char)
    requires Land(s, text) == Machines.Advance(s2, events) && s2.mode == Between && IsDelimiter(d)
    ensures Run(s, text + [d]) == Machines.Prefixed(events, StepBetween(s2, d))
  {
    var r := Run(s, text);
    var e2 := Settle(r.next).events;
    Machines.RunParts(Step, s, text, [d], r.next, r.events);
    Machines.RunOne(Step, r.next, d);
    StepSettled(r.next, s2, e2, d);
    Machines.PrefixedTwice(r.events, e2, StepBetween(s2, d));
  }

  lemma StepBlank(s: Scanner, d: char)
    requires IsBlank(d)
    ensures StepBetween(s, d) == Machines.Advance(s, [])
  {
  }

  lemma {:induction false} LandBlank(s: Scanner, text: bytes, s2: Scanner, events: seq<Event>, w: bytes)
    requires Land(s, text) == Machines.Advance(s2, events) && s2.mode == Between && Blank(w)
    ensures Land(s, text + w) == Machines.Advance(s2, events)
    decreases |w|
  {
    hide Machines.Run, Settle, StepBetween;
    if |w| == 0 {
      assert text + w == text;
    } else {
      var front := w[..|w| - 1];
      LandBlank(s, text, s2, events, front);
      StepBlank(s2, w[|w| - 1]);
      LandDelimiter(s, text + front, s2, events, w[|w| - 1]);
      assert text + w == text + front + [w[|w| - 1]];
      assert events + [] == events;
      LandIsRun(s, text + w, s2, events);
    }
  }

  /** Blanks between tokens change nothing. */
  lemma RunBlank(s: Scanner, w: bytes)
    requires s.mode == Between && Blank(w)
    ensures Run(s, w) == Machines.Advance(s, [])
  {
    LandIsRun(s, "", s, []);
    if |w| > 0 {
      var front := w[..|w| - 1];
      LandBlank(s, "", s, [], front);
      StepBlank(s, w[|w| - 1]);
      assert "" + front == front;
      LandDelimiter(s, front, s, [], w[|w| - 1]);
      assert front + [w[|w| - 1]] == w;
    }
  }

  // ---- Strings --------------------------------------------------------------------------

  function Absorb(s: Scanner, text: bytes): Scanner
    decreases |text|
  {
    if |text| == 0 then s else Absorb(Append(s, text[0]), text[1..])
  }

  lemma {:induction false} AbsorbKeeps(s: Scanner, text: bytes)
    ensures Absorb(s, text) == s.(token := Absorb(s, text).token, overflow := Absorb(s, text).overflow)
    decreases |text|
  {
    if |text| > 0 { AbsorbKeeps(Append(s, text[0]), text[1..]); }
  }

  lemma {:induction false} AbsorbToken(s: Scanner, text: bytes)
    requires |s.token| <= StringLimit(s.scalarPath, s.key) && (s.overflow ==> |s.token| == StringLimit(s.scalarPath, s.key))
    ensures Absorb(s, text).overflow == (s.overflow || |s.token| + |text| > StringLimit(s.scalarPath, s.key))
    ensures !Absorb(s, text).overflow ==> Absorb(s, text).token == s.token + text
    decreases |text|
  {
    if |text| > 0 {
      AbsorbToken(Append(s, text[0]), text[1..]);
      assert s.token + text == s.token + [text[0]] + text[1..];
    } else {
      assert s.token + text == s.token;
    }
  }

  predicate Reading(s: Scanner) {
    s.mode == InString && !s.escape && s.unicode == 0
  }

  lemma RunFirst(s: Scanner, text: bytes, s1: Scanner)
    requires |text| > 0 && Step(s, text[0]) == Machines.Advance(s1, [])
    ensures Run(s, text) == Run(s1, text[1..])
  {
    Machines.RunCons(Step, s, text);
    var r := Run(s1, text[1..]);
    if r.Advance? { assert [] + r.events == r.events; }
  }

  lemma {:induction false} RunHex(s: Scanner, text: bytes)
    requires s.mode == InString && !s.escape && s.unicode == |text| && forall i :: 0 <= i < |text| ==> IsHex(text[i])
    ensures Run(s, text) == Machines.Advance(Absorb(s.(unicode := 0), text), [])
    decreases |text|
  {
    if |text| > 0 {
      var s1 := Append(s.(unicode := s.unicode - 1), text[0]);
      RunFirst(s, text, s1);
      RunHex(s1, text[1..]);
      assert Append(s.(unicode := 0), text[0]) == s1.(unicode := 0);
    }
  }

  lemma StepBackslash(s: Scanner) returns (s1: Scanner)
    requires Reading(s)
    ensures s1 == Append(s.(escape := true), '\\') && Step(s, '\\') == Machines.Advance(s1, [])
    ensures s1.mode == InString && s1.unicode == 0 && s1.escape
  {
    s1 := Append(s.(escape := true), '\\');
  }

  lemma StepEscaped(s: Scanner, b: char) returns (s1: Scanner)
    requires s.mode == InString && s.unicode == 0 && s.escape && (b == 'u' || IsSimpleEscape(b))
    ensures s1 == Append(s.(escape := false, unicode := if b == 'u' then 4 else 0), b) && Step(s, b) == Machines.Advance(s1, [])
  {
    s1 := Append(s.(escape := false, unicode := if b == 'u' then 4 else 0), b);
  }

  lemma AppendCommutes(s: Scanner, a: char, b: char)
    requires Reading(s)
    ensures Append(Append(s.(escape := true), a).(escape := false, unicode := if b == 'u' then 4 else 0), b)
            == Append(Append(s, a), b).(unicode := if b == 'u' then 4 else 0)
  {
  }

  /** A backslash and the byte after it. */
  lemma RunEscape(s: Scanner, text: bytes) returns (s2: Scanner)
    requires Reading(s) && |text| >= 2 && text[0] == '\\' && (text[1] == 'u' || IsSimpleEscape(text[1]))
    ensures s2 == Append(Append(s, text[0]), text[1]).(unicode := if text[1] == 'u' then 4 else 0)
    ensures Run(s, text) == Run(s2, text[2..])
  {
    hide Machines.Run, Step, Append;
    var s1 := StepBackslash(s);
    s2 := StepEscaped(s1, text[1]);
    AppendCommutes(s, text[0], text[1]);
    RunFirst(s, text, s1);
    RunFirst(s1, text[1..], s2);
    assert text[1..][1..] == text[2..];
  }

  lemma BodyHead(body: bytes)
    requires StringBody(body) && |body| > 0
    ensures body[0] == '\\' ==> |body| >= 2 && (if body[1] == 'u' then |body| >= 6 else IsSimpleEscape(body[1]) && StringBody(body[2..]))
    ensures body[0] != '\\' ==> StringBody(body[1..])
  {
  }

  lemma StepPlain(s: Scanner, body: bytes)
    requires Reading(s) && StringBody(body) && |body| > 0 && body[0] != '\\'
    ensures Step(s, body[0]) == Machines.Advance(Append(s, body[0]), []) && Reading(Append(s, body[0]))
    ensures Absorb(s, body) == Absorb(Append(s, body[0]), body[1..])
  {
    hide Unquote, StringLimit;
  }

  lemma {:induction false} RunBody(s: Scanner, body: bytes)
    requires Reading(s) && StringBody(body)
    ensures Run(s, body) == Machines.Advance(Absorb(s, body), [])
    decreases |body|
  {
    if |body| == 0 {
    } else {
      BodyHead(body);
      if body[0] == '\\' {
        hide Step, Append, StringBody, Absorb, Machines.Run;
        if body[1] == 'u' {
          RunUnicode(s, body);
        } else {
          var s2 := RunEscape(s, body);
          AppendKeeps(s, body[0]);
          AppendKeeps(Append(s, body[0]), body[1]);
          RunBody(s2, body[2..]);
          AbsorbTwo(s, body);
        }
      } else {
        StepPlain(s, body);
        hide Step, Append, StringBody, Absorb, Machines.Run;
        RunFirst(s, body, Append(s, body[0]));
        RunBody(Append(s, body[0]), body[1..]);
      }
    }
  }

  lemma AbsorbTwo(s: Scanner, text: bytes)
    requires |text| >= 2
    ensures Absorb(s, text) == Absorb(Append(Append(s, text[0]), text[1]), text[2..])
  {
    assert text[1..][1..] == text[2..];
  }

  lemma {:induction false} RunUnicode(s: Scanner, body: bytes)
    requires Reading(s) && StringBody(body) && |body| >= 6 && body[0] == '\\' && body[1] == 'u'
    ensures Run(s, body) == Machines.Advance(Absorb(s, body), [])
    decreases |body|, 0
  {
    hide Machines.Run, Step, Append;
    var s2 := RunEscape(s, body);
    var plain := Append(Append(s, body[0]), body[1]);
    AbsorbTwo(s, body);
    assert body[2..] == body[2..6] + body[6..];
    AppendKeeps(s, body[0]);
    AppendKeeps(Append(s, body[0]), body[1]);
    RunHex(s2, body[2..6]);
    var s3 := Absorb(plain, body[2..6]);
    AbsorbKeeps(plain, body[2..6]);
    Machines.RunParts(Step, s2, body[2..6], body[6..], s3, []);
    RunBody(s3, body[6..]);
    AbsorbAppend(plain, body[2..6], body[6..]);
  }

  lemma AppendKeeps(s: Scanner, b: char)
    ensures Append(s, b) == s.(token := Append(s, b).token, overflow := Append(s, b).overflow)
  {
  }

  lemma {:induction false} AbsorbAppend(s: Scanner, a: bytes, b: bytes)
    ensures Absorb(s, a + b) == Absorb(Absorb(s, a), b)
    decreases |a|
  {
    if |a| == 0 {
      assert a + b == b;
    } else {
      assert (a + b)[1..] == a[1..] + b;
      AbsorbAppend(Append(s, a[0]), a[1..], b);
    }
  }

  lemma StepQuote(s: Scanner)
    requires Reading(s)
    ensures Step(s, '"') == FinishString(s)
  {
  }

  /** A quoted string from its opening to its closing quote. */
  lemma RunQuoted(s: Scanner, s1: Scanner, body: bytes)
    requires s.mode == Between && !s.escape && s.unicode == 0 && StringBody(body)
    requires Step(s, '"') == Machines.Advance(s1, []) && s1.mode == InString && s1.escape == s.escape && s1.unicode == s.unicode
    requires s1.token == "" && !s1.overflow
    ensures Run(s, Quoted(body)) == FinishString(Absorb(s1, body))
  {
    var text := Quoted(body);
    RunFirst(s, text, s1);
    assert text[1..] == body + "\"";
    RunBody(s1, body);
    AbsorbKeeps(s1, body);
    var s2 := Absorb(s1, body);
    Machines.RunParts(Step, s1, body, ['"'], s2, []);
    Machines.RunOne(Step, s2, '"');
    StepQuote(s2);
    Machines.PrefixedNone(FinishString(s2));
  }

  // ---- Values ---------------------------------------------------------------------------------

  lemma ItemLimit(path: string, key: bool)
    ensures StringLimit(ItemPath(path), key) == MAX_TOKEN
  {
    var p := ItemPath(path);
    assert p[|p| - 1] == ']';
    var suffix := ".function.arguments";
    if |p| >= |suffix| { assert p[|p| - |suffix|..][|suffix| - 1] == p[|p| - 1]; }
    assert "choices[].message.function_call.arguments"[|"choices[].message.function_call.arguments"| - 1] == 's';
    assert "output[].arguments"[|"output[].arguments"| - 1] == 's';
  }

  /** Numbers and literals are always limited to 512 bytes. */
  lemma ScalarLimit(s: Scanner)
    requires Inside(s, s.stack) && ExpectsValue(s.stack[|s.stack| - 1])
    ensures StringLimit(ValuePath(s.stack), s.key) == MAX_TOKEN
  {
    var top := s.stack[|s.stack| - 1];
    if top.kind != '{' { ItemLimit(top.path, s.key); }
  }

  lemma {:induction false} RunScalar(s: Scanner, text: bytes)
    requires s.mode == InScalar && forall i :: 0 <= i < |text| ==> !IsDelimiter(text[i])
    ensures Run(s, text) == Machines.Advance(Absorb(s, text), [])
    decreases |text|
  {
    if |text| > 0 {
      RunFirst(s, text, Append(s, text[0]));
      RunScalar(Append(s, text[0]), text[1..]);
    }
  }

  /** What reading a value at `s` must come to. */
  predicate Reads(s: Scanner, v: Value) {
    var r := Land(s, Text(v));
    r.Advance? && r.events == Trace(v, ValuePath(s.stack), TopKey(s.stack)) && Done(r.next, s)
  }

  lemma StepScalarStart(s: Scanner, token: bytes) returns (s0: Scanner)
    requires Ready(s, Lit(token)) && |token| > 0 && StartsScalar(token[0])
    ensures s0 == s.(mode := InScalar, token := "", overflow := false, scalarPath := ValuePath(s.stack))
    ensures Step(s, token[0]) == Machines.Advance(Append(s0, token[0]), [])
  {
    s0 := s.(mode := InScalar, token := "", overflow := false, scalarPath := ValuePath(s.stack));
  }

  lemma ReadLit(s: Scanner, token: bytes)
    requires Ready(s, Lit(token)) && ScalarToken(token) && |token| <= MAX_TOKEN
    ensures Reads(s, Lit(token))
  {
    ScalarTokenShape(token);
    ScalarLimit(s);
    var s0 := StepScalarStart(s, token);
    var s1 := Append(s0, token[0]);
    RunFirst(s, token, s1);
    RunScalar(s1, token[1..]);
    AbsorbKeeps(s0, token);
    AbsorbToken(s0, token);
    assert Absorb(s0, token) == Absorb(s1, token[1..]);
    assert "" + token == token;
    SettleLit(s, Absorb(s0, token), token);
  }

  lemma SettleLit(s: Scanner, s1: Scanner, token: bytes)
    requires Ready(s, Lit(token)) && ScalarToken(token)
    requires Run(s, token) == Machines.Advance(s1, [])
    requires s1 == s.(mode := InScalar, token := token, overflow := false, scalarPath := ValuePath(s.stack))
    ensures Reads(s, Lit(token))
  {
  }

  lemma StepStringStart(s: Scanner, body: bytes) returns (s1: Scanner)
    requires Ready(s, Str(body))
    ensures s1 == BeginString(s, false, ValuePath(s.stack))
    ensures Step(s, '"') == Machines.Advance(s1, [])
  {
    s1 := BeginString(s, false, ValuePath(s.stack));
  }

  lemma ReadStr(s: Scanner, body: bytes)
    requires Ready(s, Str(body)) && StringBody(body)
    ensures Reads(s, Str(body))
  {
    var s1 := StepStringStart(s, body);
    RunQuoted(s, s1, body);
    AbsorbKeeps(s1, body);
    AbsorbToken(s1, body);
    assert "" + body == body;
    SettleStr(s, Absorb(s1, body), body);
  }

  lemma SettleStr(s: Scanner, s1: Scanner, body: bytes)
    requires Ready(s, Str(body))
    requires Run(s, Quoted(body)) == FinishString(s1)
    requires s1 == BeginString(s, false, ValuePath(s.stack)).(token := s1.token, overflow := s1.overflow)
    requires s1.overflow == (|body| > StringLimit(ValuePath(s.stack), false)) && (!s1.overflow ==> s1.token == body)
    ensures Reads(s, Str(body))
  {
    var r := FinishString(s1);
    LandIsRun(s, Quoted(body), r.next, r.events);
  }

  // ---- Containers ------------------------------------------------------------------------------

  function OpenFrame(s: Scanner, kind: char): Frame {
    Frame(kind, if kind == '[' then 'V' else 'K', ValuePath(s.stack), "", {})
  }

  lemma OpenContainer(s: Scanner, kind: char) returns (s1: Scanner)
    requires Quiet(s) && !s.done && |s.stack| < MAX_DEPTH && (kind == '{' || kind == '[')
    requires if |s.stack| == 0 then !s.root && kind == '{' else Inside(s, s.stack) && ExpectsValue(s.stack[|s.stack| - 1])
    ensures Run(s, [kind]) == Machines.Advance(s1, [Opened(ValuePath(s.stack), kind)])
    ensures Inside(s1, s.stack + [OpenFrame(s, kind)])
  {
    s1 := s.(root := true, stack := s.stack + [OpenFrame(s, kind)]);
    Machines.RunOne(Step, s, kind);
  }

  /** The frame of an object whose members `ms` have been read. */
  function ObjectFrame(path: string, ms: Members): Frame {
    match ms
    case NoMembers => Frame('{', 'K', path, "", {})
    case AddMember(_, _, key, _, _, _, _) => Frame('{', ',', path, NameOf(key), TrackedNames(ms))
  }

  lemma ObjectFrameEnds(path: string, ms: Members)
    ensures ObjectFrame(path, NoMembers) == Frame('{', 'K', path, "", {})
    ensures var f := ObjectFrame(path, ms); f.kind == '{' && f.state in {'K', ','} && f.path == path
  {
  }

  function ArrayFrame(path: string, items: Items): Frame {
    Frame('[', if items.NoItems? then 'V' else ',', path, "", {})
  }

  predicate ReadsMembers(s: Scanner, base: seq<Frame>, path: string, ms: Members) {
    var r := Land(s, MembersText(ms));
    r.Advance? && r.events == MembersTrace(ms, path) && Inside(r.next, base + [ObjectFrame(path, ms)])
  }

  predicate ReadsItems(s: Scanner, base: seq<Frame>, path: string, items: Items) {
    var r := Land(s, ItemsText(items));
    r.Advance? && r.events == ItemsTrace(items, path) && Inside(r.next, base + [ArrayFrame(path, items)])
  }

  /** A comma inside a container asks for the next key or value. */
  lemma ReadComma(s: Scanner, text: bytes, base: seq<Frame>, frame: Frame, events: seq<Event>) returns (s1: Scanner)
    requires Land(s, text).Advance? && Land(s, text).events == events
    requires frame.state == ',' && Inside(Land(s, text).next, base + [frame])
    ensures Run(s, text + ",") == Machines.Advance(s1, events)
    ensures frame.kind == '{' ==> Inside(s1, base + [frame.(state := 'k')])
    ensures frame.kind != '{' ==> Inside(s1, base + [frame.(state := 'v')])
  {
    var s2 := Land(s, text).next;
    LandDelimiter(s, text, s2, events, ',');
    s1 := StepComma(s2, base, frame);
    assert events + [] == events;
  }

  lemma StepComma(s: Scanner, base: seq<Frame>, frame: Frame) returns (s1: Scanner)
    requires frame.state == ',' && Inside(s, base + [frame])
    ensures StepBetween(s, ',') == Machines.Advance(s1, [])
    ensures frame.kind == '{' ==> Inside(s1, base + [frame.(state := 'k')])
    ensures frame.kind != '{' ==> Inside(s1, base + [frame.(state := 'v')])
  {
    s1 := s.(stack := SetState(s.stack, if frame.kind == '{' then 'k' else 'v'));
    assert s1.stack == base + [frame.(state := if frame.kind == '{' then 'k' else 'v')];
  }

  /** From the end of the members so far to the opening quote of the next key. */
  lemma NextMember(s: Scanner, base: seq<Frame>, path: string, front: Members, gap: bytes) returns (s1: Scanner)
    requires ReadsMembers(s, base, path, front) && Blank(gap)
    ensures Run(s, MembersText(front) + (if front.NoMembers? then "" else ",") + gap)
            == Machines.Advance(s1, MembersTrace(front, path))
    ensures Inside(s1, base + [ObjectFrame(path, front).(state := if front.NoMembers? then 'K' else 'k')])
  {
    var text := MembersText(front);
    if front.NoMembers? {
      s1 := Land(s, text).next;
      RunBlank(s1, gap);
      assert text + "" + gap == gap;
    } else {
      s1 := ReadComma(s, text, base, ObjectFrame(path, front), MembersTrace(front, path));
      RunBlank(s1, gap);
      Machines.RunParts(Step, s, text + ",", gap, s1, MembersTrace(front, path));
      assert MembersTrace(front, path) + [] == MembersTrace(front, path);
    }
  }

  function Named(frame: Frame, key: bytes): Frame {
    frame.(state := ':', key := NameOf(key),
           fields := frame.fields + (if Tracked(KeyName(key)) then {KeyName(key)} else {}))
  }

  lemma StepKeyStart(s: Scanner, base: seq<Frame>, frame: Frame) returns (q: Scanner)
    requires frame.state in {'K', 'k'} && Inside(s, base + [frame])
    ensures q == BeginString(s, true, "") && Step(s, '"') == Machines.Advance(q, [])
  {
    q := BeginString(s, true, "");
  }

  lemma FinishKeyNames(s: Scanner, q: Scanner, base: seq<Frame>, frame: Frame, key: bytes) returns (s1: Scanner)
    requires Inside(s, base + [frame]) && KeyName(key) !in frame.fields
    requires q == BeginString(s, true, "").(token := q.token, overflow := q.overflow)
    requires q.overflow == (|key| > MAX_TOKEN) && (!q.overflow ==> q.token == key)
    ensures FinishString(q) == Machines.Advance(s1, [])
    ensures Inside(s1, base + [Named(frame, key)]) && s1.key
  {
    s1 := FinishKey(q).next;
    assert s1.stack == base + [Named(frame, key)];
  }

  lemma StepColon(s: Scanner, base: seq<Frame>, frame: Frame) returns (s1: Scanner)
    requires frame.state == ':' && Inside(s, base + [frame]) && s.key
    ensures Run(s, ":") == Machines.Advance(s1, []) && Inside(s1, base + [frame.(state := 'v')])
  {
    s1 := s.(stack := SetState(s.stack, 'v'));
    assert s1.stack == base + [frame.(state := 'v')];
    Machines.RunOne(Step, s, ':');
  }

  lemma ReadKeyName(s: Scanner, base: seq<Frame>, frame: Frame, key: bytes) returns (s1: Scanner)
    requires frame.state in {'K', 'k'} && Inside(s, base + [frame]) && StringBody(key) && KeyName(key) !in frame.fields
    ensures Run(s, Quoted(key)) == Machines.Advance(s1, [])
    ensures Inside(s1, base + [Named(frame, key)]) && s1.key
  {
    hide Machines.Run, FinishString, Tracked, KeyName;
    var q := StepKeyStart(s, base, frame);
    RunQuoted(s, q, key);
    AbsorbKeeps(q, key);
    AbsorbToken(q, key);
    assert "" + key == key;
    s1 := FinishKeyNames(s, Absorb(q, key), base, frame, key);
  }

  /** A key and its colon. */
  lemma ReadKey(s: Scanner, base: seq<Frame>, frame: Frame, key: bytes, pre: bytes, post: bytes) returns (s1: Scanner)
    requires frame.state in {'K', 'k'} && Inside(s, base + [frame])
    requires StringBody(key) && Blank(pre) && Blank(post) && KeyName(key) !in frame.fields
    ensures Run(s, Quoted(key) + pre + ":" + post) == Machines.Advance(s1, [])
    ensures Inside(s1, base + [Named(frame, key).(state := 'v')])
  {
    hide Machines.Run, Tracked, KeyName;
    var s2 := ReadKeyName(s, base, frame, key);
    RunBlank(s2, pre);
    Machines.RunParts(Step, s, Quoted(key), pre, s2, []);
    s1 := StepColon(s2, base, Named(frame, key));
    Machines.RunParts(Step, s, Quoted(key) + pre, ":", s2, []);
    RunBlank(s1, post);
    Machines.RunParts(Step, s, Quoted(key) + pre + ":", post, s1, []);
  }

  lemma StepClose(s: Scanner, before: Scanner, frame: Frame, close: char) returns (s1: Scanner)
    requires Inside(s, before.stack + [frame]) && (|before.stack| > 0 ==> !before.done)
    requires if close == '}' then frame.kind == '{' && frame.state in {'K', ','}
             else close == ']' && frame.kind == '[' && frame.state in {'V', ','}
    ensures StepBetween(s, close) == Machines.Advance(s1, [Closed(frame.path, frame.kind)]) && Done(s1, before)
  {
    hide SetState;
    assert s.stack[..|s.stack| - 1] == before.stack;
    s1 := ValueDone(s.(stack := before.stack));
    assert CloseTop(s) == Machines.Advance(s1, [Closed(frame.path, frame.kind)]);
  }

  /** The closing brace or bracket. */
  lemma CloseContainer(s: Scanner, text: bytes, before: Scanner, frame: Frame, events: seq<Event>, close: char)
    requires Land(s, text).Advance? && Land(s, text).events == events
    requires Inside(Land(s, text).next, before.stack + [frame])
    requires if close == '}' then frame.kind == '{' && frame.state in {'K', ','}
             else close == ']' && frame.kind == '[' && frame.state in {'V', ','}
    requires |before.stack| > 0 ==> !before.done
    ensures var r := Land(s, text + [close]);
      r.Advance? && r.events == events + [Closed(frame.path, frame.kind)] && Done(r.next, before)
  {
    var s2 := Land(s, text).next;
    LandDelimiter(s, text, s2, events, close);
    var s1 := StepClose(s2, before, frame, close);
    LandIsRun(s, text + [close], s1, events + [Closed(frame.path, frame.kind)]);
  }

  lemma {:induction false} ReadValue(s: Scanner, v: Value)
    requires Ready(s, v) && WellFormed(v) && WithinLimits(v) && |s.stack| + Depth(v) <= MAX_DEPTH
    ensures Reads(s, v)
    decreases v, 1
  {
    match v {
      case Lit(token) => ReadLit(s, token);
      case Str(body) => ReadStr(s, body);
      case Obj(members, pad) => ReadObject(s, members, pad);
      case Arr(items, pad) => ReadArray(s, items, pad);
    }
  }

  lemma {:induction false} ReadObject(s: Scanner, members: Members, pad: bytes)
    requires Ready(s, Obj(members, pad)) && WellFormedMembers(members) && Blank(pad) && MembersWithinLimits(members)
    requires |s.stack| + 1 + MembersDepth(members) <= MAX_DEPTH
    ensures Reads(s, Obj(members, pad))
    decreases members, 2
  {
    hide Machines.Run, Settle, ObjectFrame, MembersTrace, MembersWithinLimits, MembersText;
    ObjectFrameEnds(ValuePath(s.stack), members);
    var path := ValuePath(s.stack);
    var s1 := OpenContainer(s, '{');
    ReadMembers(s1, s.stack, path, members);
    var inner := MembersText(members);
    var filler := if members.NoMembers? then pad else "";
    var r := Land(s1, inner);
    LandBlank(s1, inner, r.next, r.events, filler);
    LandParts(s, ['{'], inner + filler, s1, [Opened(path, '{')], r.next, r.events);
    assert "{" + (inner + filler) == "{" + inner + filler;
    CloseContainer(s, "{" + inner + filler, s, ObjectFrame(path, members), [Opened(path, '{')] + r.events, '}');
    assert Text(Obj(members, pad)) == "{" + inner + filler + ['}'];
  }

  lemma {:induction false} ReadArray(s: Scanner, items: Items, pad: bytes)
    requires Ready(s, Arr(items, pad)) && WellFormedItems(items) && Blank(pad) && ItemsWithinLimits(items)
    requires |s.stack| + 1 + ItemsDepth(items) <= MAX_DEPTH
    ensures Reads(s, Arr(items, pad))
    decreases items, 2
  {
    hide Machines.Run, Settle, ItemsTrace, ItemsWithinLimits, ItemsText;
    var path := ValuePath(s.stack);
    var s1 := OpenContainer(s, '[');
    ReadItems(s1, s.stack, path, items);
    var inner := ItemsText(items);
    var filler := if items.NoItems? then pad else "";
    var r := Land(s1, inner);
    LandBlank(s1, inner, r.next, r.events, filler);
    LandParts(s, ['['], inner + filler, s1, [Opened(path, '[')], r.next, r.events);
    assert "[" + (inner + filler) == "[" + inner + filler;
    CloseContainer(s, "[" + inner + filler, s, ArrayFrame(path, items), [Opened(path, '[')] + r.events, ']');
    assert Text(Arr(items, pad)) == "[" + inner + filler + [']'];
  }

  lemma {:induction false} ReadMembers(s: Scanner, base: seq<Frame>, path: string, ms: Members)
    requires Inside(s, base + [ObjectFrame(path, NoMembers)])
    requires WellFormedMembers(ms) && MembersWithinLimits(ms) && |base| + 1 + MembersDepth(ms) <= MAX_DEPTH
    ensures ReadsMembers(s, base, path, ms)
    decreases ms, 0
  {
    match ms {
      case NoMembers => LandIsRun(s, "", s, []);
      case AddMember(front, gap, key, pre, post, value, tail) =>
        hide Machines.Run, Tracked, KeyName;
        ReadMembers(s, base, path, front);
        var frame := ObjectFrame(path, front).(state := if front.NoMembers? then 'K' else 'k');
        var s2 := ReadLead(s, base, path, ms, frame);
        ReadValue(s2, value);
        ReadTail(s, base, path, ms, frame, s2);
    }
  }

  lemma ReadTail(s: Scanner, base: seq<Frame>, path: string, ms: Members, frame: Frame, s2: Scanner)
    requires ms.AddMember? && Blank(ms.tail)
    requires frame.kind == '{' && frame.path == path && frame.fields == TrackedNames(ms.front)
    requires Run(s, Lead(ms)) == Machines.Advance(s2, MembersTrace(ms.front, path))
    requires Inside(s2, base + [Named(frame, ms.key).(state := 'v')]) && Reads(s2, ms.value)
    ensures ReadsMembers(s, base, path, ms)
  {
    hide Machines.Run, Tracked, KeyName;
    var r := Land(s2, Text(ms.value));
    LandParts(s, Lead(ms), Text(ms.value), s2, MembersTrace(ms.front, path), r.next, r.events);
    LandBlank(s, Lead(ms) + Text(ms.value), r.next, MembersTrace(ms.front, path) + r.events, ms.tail);
    assert r.next.stack == base + [Named(frame, ms.key).(state := ',')];
  }

  /** The text of an object up to its last value. */
  function Lead(ms: Members): bytes
    requires ms.AddMember?
  {
    MembersText(ms.front) + (if ms.front.NoMembers? then "" else ",") + ms.gap + Quoted(ms.key) + ms.preColon + ":" + ms.postColon
  }

  lemma ReadLead(s: Scanner, base: seq<Frame>, path: string, ms: Members, frame: Frame) returns (s2: Scanner)
    requires ms.AddMember? && ReadsMembers(s, base, path, ms.front)
    requires WellFormedMembers(ms) && KeyName(ms.key) !in TrackedNames(ms.front)
    requires frame == ObjectFrame(path, ms.front).(state := if ms.front.NoMembers? then 'K' else 'k')
    ensures Run(s, Lead(ms)) == Machines.Advance(s2, MembersTrace(ms.front, path))
    ensures Inside(s2, base + [Named(frame, ms.key).(state := 'v')])
  {
    hide Machines.Run, Tracked, KeyName;
    var s1 := NextMember(s, base, path, ms.front, ms.gap);
    s2 := ReadKey(s1, base, frame, ms.key, ms.preColon, ms.postColon);
    var opening := MembersText(ms.front) + (if ms.front.NoMembers? then "" else ",") + ms.gap;
    var naming := Quoted(ms.key) + ms.preColon + ":" + ms.postColon;
    Machines.RunParts(Step, s, opening, naming, s1, MembersTrace(ms.front, path));
    assert MembersTrace(ms.front, path) + [] == MembersTrace(ms.front, path);
    assert Lead(ms) == opening + naming;
  }

  lemma {:induction false} ReadItems(s: Scanner, base: seq<Frame>, path: string, items: Items)
    requires Inside(s, base + [ArrayFrame(path, NoItems)])
    requires WellFormedItems(items) && ItemsWithinLimits(items) && |base| + 1 + ItemsDepth(items) <= MAX_DEPTH
    ensures ReadsItems(s, base, path, items)
    decreases items, 0
  {
    match items {
      case NoItems => LandIsRun(s, "", s, []);
      case AddItem(before, gap, value, tail) =>
        ReadItems(s, base, path, before);
        var s1 := NextItem(s, base, path, before, gap);
        var opening := ItemsText(before) + (if before.NoItems? then "" else ",") + gap;
        ReadValue(s1, value);
        var r := Land(s1, Text(value));
        LandParts(s, opening, Text(value), s1, ItemsTrace(before, path), r.next, r.events);
        LandBlank(s, opening + Text(value), r.next, ItemsTrace(before, path) + r.events, tail);
        assert r.next.stack == base + [ArrayFrame(path, items)];
    }
  }

  lemma NextItem(s: Scanner, base: seq<Frame>, path: string, before: Items, gap: bytes) returns (s1: Scanner)
    requires ReadsItems(s, base, path, before) && Blank(gap)
    ensures Run(s, ItemsText(before) + (if before.NoItems? then "" else ",") + gap)
            == Machines.Advance(s1, ItemsTrace(before, path))
    ensures Inside(s1, base + [ArrayFrame(path, before).(state := if before.NoItems? then 'V' else 'v')])
  {
    var text := ItemsText(before);
    if before.NoItems? {
      s1 := Land(s, text).next;
      RunBlank(s1, gap);
      assert text + "" + gap == gap;
    } else {
      s1 := ReadComma(s, text, base, ArrayFrame(path, before), ItemsTrace(before, path));
      RunBlank(s1, gap);
      Machines.RunParts(Step, s, text + ",", gap, s1, ItemsTrace(before, path));
      assert ItemsTrace(before, path) + [] == ItemsTrace(before, path);
    }
  }

  // ---- Documents ------------------------------------------------------------------------------------

  /** Every document within the limits is accepted, and reported value by value. */
  lemma ReadDocument(d: Document)
    requires Acceptable(d)
    ensures var r := Run(START, DocumentText(d));
      r.Advance? && r.events == Trace(d.root, "", "") && Finished(r.next)
  {
    RunBlank(START, d.head);
    ReadValue(START, d.root);
    var r := Land(START, Text(d.root));
    LandParts(START, d.head, Text(d.root), START, [], r.next, r.events);
    assert [] + r.events == r.events;
    LandBlank(START, d.head + Text(d.root), r.next, r.events, d.foot);
    ClosedByBrace(d);
  }

  /** The last byte of an object is its brace, so nothing is pending behind it. */
  lemma ClosedByBrace(d: Document)
    requires Acceptable(d)
    requires Land(START, DocumentText(d)).Advance? && Finished(Land(START, DocumentText(d)).next)
    ensures Run(START, DocumentText(d)) == Land(START, DocumentText(d))
  {
    var text := DocumentText(d);
    var r := Run(START, text);
    assert r.events + [] == r.events;
    assert |text| > 0 && (|d.foot| > 0 ==> text[|text| - 1] == d.foot[|d.foot| - 1]);
    var last := text[|text| - 1];
    assert IsDelimiter(last);
    var before := Run(START, text[..|text| - 1]);
    DelimiterSettles(before.next, last);
  }

  lemma BetweenDelimiter(s: Scanner, d: char)
    requires s.mode == Between && IsDelimiter(d) && StepBetween(s, d).Advance?
    ensures StepBetween(s, d).next.mode == Between
  {
  }

  lemma StringDelimiter(s: Scanner, d: char)
    requires s.mode == InString && IsDelimiter(d) && StepString(s, d).Advance?
    ensures StepString(s, d).next.mode == InString
  {
  }

  lemma DelimiterSettles(s: Scanner, d: char)
    requires IsDelimiter(d) && Step(s, d).Advance?
    ensures Step(s, d).next.mode != InScalar
  {
    match s.mode {
      case Between => BetweenDelimiter(s, d);
      case InString => StringDelimiter(s, d);
      case InScalar => BetweenDelimiter(FinishScalar(s).next, d);
    }
  }
}
