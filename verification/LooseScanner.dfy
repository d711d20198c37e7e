/** The loose bracket scanner of the request envelope. */
module LooseScanner {
  // It finds where a JSON value ends by counting brackets and skipping strings, without judging
  // the value.  On every well-formed value nested at most 256 deep it finds exactly the end.

  import opened GoText
  import opened JsonGrammar
  import Compact
  import Machines

  const MAX_NEST: nat := 256

  /** The brackets that are open and where the scanner is, or the end of the value. */
  datatype Loose = Shut | Open(stack: seq<char>, spot: Compact.Spot)

  type Loosened = Machines.Outcome<Loose, ()>

  function Push(stack: seq<char>, b: char): Loosened {
    if |stack| >= MAX_NEST then Machines.Reject else Machines.Advance(Open(stack + [b], Compact.Outside), [])
  }

  function Pop(stack: seq<char>, b: char): Loosened {
    if |stack| == 0 || (b == '}' && stack[|stack| - 1] != '{') || (b == ']' && stack[|stack| - 1] != '[') then Machines.Reject
    else Machines.Advance(if |stack| == 1 then Shut else Open(stack[..|stack| - 1], Compact.Outside), [])
  }

  function Step(s: Loose, b: char): Loosened {
    match s
    case Shut => Machines.Reject
    case Open(stack, Escaped) => Machines.Advance(Open(stack, Compact.Inside), [])
    case Open(stack, Inside) =>
      if b == '"' then Machines.Advance(if |stack| == 0 then Shut else Open(stack, Compact.Outside), [])
      else if b == '\\' then Machines.Advance(Open(stack, Compact.Escaped), [])
      else if b < ' ' then Machines.Reject
      else Machines.Advance(s, [])
    case Open(stack, Outside) =>
      if b == '"' then Machines.Advance(Open(stack, Compact.Inside), [])
      else if b == '{' || b == '[' then Push(stack, b)
      else if b == '}' || b == ']' then Pop(stack, b)
      else Machines.Advance(s, [])
  }

  /** Where the value ends that is being scanned at `i`. */
  function End(s: Loose, data: bytes, i: nat): (r: Option<nat>)
    ensures r.Some? ==> i <= r.value && (i <= |data| ==> r.value <= |data|)
    decreases |data| - i
  {
    if s.Shut? then Some(i)
    else if i >= |data| then None
    else
      match Step(s, data[i])
      case Reject => None
      case Advance(s1, _) => End(s1, data, i + 1)
  }

  const IN_STRING := Open([], Compact.Inside)

  function StringEnd(data: bytes, i: nat): (r: Option<nat>)
    ensures r.Some? ==> i + 1 <= r.value <= |data|
  {
    if i < |data| && data[i] == '"' then End(IN_STRING, data, i + 1) else None
  }

  function ScalarEnd(data: bytes, i: nat): (j: nat)
    ensures i <= j && (i <= |data| ==> j <= |data|)
    decreases |data| - i
  {
    if i < |data| && !IsDelimiter(data[i]) then ScalarEnd(data, i + 1) else i
  }

  function ValueEnd(data: bytes, i: nat): (r: Option<nat>)
    ensures r.Some? ==> i < r.value <= |data|
  {
    if i >= |data| then None
    else if data[i] == '"' then StringEnd(data, i)
    else if data[i] == '{' || data[i] == '[' then
      EndNotShut(Open([data[i]], Compact.Outside), data, i + 1);
      End(Open([data[i]], Compact.Outside), data, i + 1)
    else if ScalarEnd(data, i) == i then None
    else Some(ScalarEnd(data, i))
  }

  lemma EndNotShut(s: Loose, data: bytes, i: nat)
    requires !s.Shut?
    ensures End(s, data, i).Some? ==> End(s, data, i).value > i
  {
  }

  // ---- The scanner ------------------------------------------------------------------------

  /** A string inside brackets is skipped like one on its own. */
  lemma {:induction false} InnerString(stack: seq<char>, spot: Compact.Spot, data: bytes, i: nat)
    requires |stack| > 0 && !spot.Outside?
    ensures End(Open(stack, spot), data, i)
            == match End(Open([], spot), data, i) { case None => None case Some(j) => End(Open(stack, Compact.Outside), data, j) }
    decreases |data| - i
  {
    if i < |data| {
      match Step(Open([], spot), data[i]) {
        case Reject =>
        case Advance(s, _) => if s.Open? { InnerString(stack, s.spot, data, i + 1); }
      }
    }
  }

  method ScanString(data: bytes, start: nat) returns (r: Option<nat>)
    ensures r == StringEnd(data, start)
  {
    if start >= |data| || data[start] != '"' { return None; }
    var index := start + 1;
    while index < |data|
      invariant start < index
      invariant StringEnd(data, start) == End(IN_STRING, data, index)
    {
      if data[index] == '"' { return Some(index + 1); }
      if data[index] == '\\' {
        index := index + 1;
        if index >= |data| { return None; }
      } else if data[index] < ' ' {
        return None;
      }
      index := index + 1;
    }
    return None;
  }

  method SkipScalar(data: bytes, start: nat) returns (index: nat)
    ensures index == ScalarEnd(data, start)
  {
    index := start;
    while index < |data| && !IsDelimiter(data[index])
      invariant ScalarEnd(data, start) == ScalarEnd(data, index)
    {
      index := index + 1;
    }
  }

  /** Where the value ends when `i` is between tokens. */
  function EndBetween(stack: seq<char>, data: bytes, i: nat): Option<nat> {
    End(Open(stack, Compact.Outside), data, i)
  }

  lemma AtQuote(stack: seq<char>, data: bytes, i: nat)
    requires |stack| > 0 && i < |data| && data[i] == '"'
    ensures EndBetween(stack, data, i)
            == match StringEnd(data, i) { case None => None case Some(j) => EndBetween(stack, data, j) }
  {
    InnerString(stack, Compact.Inside, data, i + 1);
  }

  lemma AtOpening(stack: seq<char>, data: bytes, i: nat)
    requires i < |data| && (data[i] == '{' || data[i] == '[')
    ensures EndBetween(stack, data, i) == if |stack| >= MAX_NEST then None else EndBetween(stack + [data[i]], data, i + 1)
  {
  }

  /** A bracket that closes another kind than the innermost one. */
  predicate Mismatched(open: char, b: char) {
    (b == '}' && open != '{') || (b == ']' && open != '[')
  }

  lemma AtClosing(stack: seq<char>, data: bytes, i: nat)
    requires |stack| > 0 && i < |data| && (data[i] == '}' || data[i] == ']')
    ensures EndBetween(stack, data, i)
            == if Mismatched(stack[|stack| - 1], data[i]) then None
               else if |stack| == 1 then Some(i + 1)
               else EndBetween(stack[..|stack| - 1], data, i + 1)
  {
    assert End(Shut, data, i + 1) == Some(i + 1);
  }

  lemma AtOther(stack: seq<char>, data: bytes, i: nat)
    requires i < |data| && Plain(data[i])
    ensures EndBetween(stack, data, i) == EndBetween(stack, data, i + 1)
  {
  }

  lemma PastTheEnd(stack: seq<char>, data: bytes, i: nat)
    requires i >= |data|
    ensures EndBetween(stack, data, i).None?
  {
  }

  /** skipJSONValue, with its bounded array of open brackets. */
  method SkipValue(data: bytes, start: nat) returns (r: Option<nat>)
    ensures r == ValueEnd(data, start)
  {
    hide EndBetween, StringEnd, End;
    if start >= |data| { return None; }
    if data[start] == '"' {
      r := ScanString(data, start);
      return;
    }
    if data[start] != '{' && data[start] != '[' {
      var end := SkipScalar(data, start);
      if end == start { return None; }
      return Some(end);
    }
    r := SkipContainer(data, start);
    EnteredContainer(data, start);
  }

  lemma EnteredContainer(data: bytes, start: nat)
    requires start < |data| && (data[start] == '{' || data[start] == '[')
    ensures ValueEnd(data, start) == EndBetween([data[start]], data, start + 1)
  {
    hide End;
  }

  method SkipContainer(data: bytes, start: nat) returns (r: Option<nat>)
    requires start < |data| && (data[start] == '{' || data[start] == '[')
    ensures r == EndBetween([data[start]], data, start + 1)
  {
    hide EndBetween, End;
    var stack := new char[MAX_NEST];
    stack[0] := data[start];
    var depth, index := 1, start + 1;
    assert stack[..depth] == [data[start]];
    while index < |data|
      invariant 1 <= depth <= MAX_NEST && start < index
      invariant EndBetween([data[start]], data, start + 1) == EndBetween(stack[..depth], data, index)
      decreases |data| - index
    {
      var b := data[index];
      ghost var before := stack[..depth];
      if b == '"' {
        AtQuote(before, data, index);
        var end := ScanString(data, index);
        if end.None? { return None; }
        index := end.value;
      } else if b == '{' || b == '[' {
        AtOpening(before, data, index);
        if depth == stack.Length { return None; }
        stack[depth] := b;
        depth := depth + 1;
        index := index + 1;
        assert stack[..depth] == before + [b];
      } else if b == '}' || b == ']' {
        AtClosing(before, data, index);
        if Mismatched(stack[depth - 1], b) { return None; }
        depth := depth - 1;
        index := index + 1;
        if depth == 0 { return Some(index); }
        assert stack[..depth] == before[..depth];
      } else {
        AtOther(before, data, index);
        index := index + 1;
      }
    }
    PastTheEnd(stack[..depth], data, index);
    return None;
  }

  // ---- The scanner and the grammar ------------------------------------------------------------

  predicate Passes(stack: seq<char>, text: bytes) {
    Machines.Run(Step, Open(stack, Compact.Outside), text) == Machines.Advance(Open(stack, Compact.Outside), [])
  }

  lemma PassesParts(stack: seq<char>, a: bytes, b: bytes)
    requires Passes(stack, a) && Passes(stack, b)
    ensures Passes(stack, a + b)
  {
    Machines.RunAppend(Step, Open(stack, Compact.Outside), a, b);
  }

  predicate Plain(b: char) {
    b != '"' && b != '{' && b != '[' && b != '}' && b != ']'
  }

  lemma {:induction false} PassesPlain(stack: seq<char>, s: bytes)
    requires forall i :: 0 <= i < |s| ==> Plain(s[i])
    ensures Passes(stack, s)
  {
    if |s| > 0 { PassesPlain(stack, s[..|s| - 1]); }
  }

  lemma PassesBlank(stack: seq<char>, s: bytes)
    requires Blank(s)
    ensures Passes(stack, s)
  {
    PassesPlain(stack, s);
  }

  lemma {:induction false} InsidePlain(stack: seq<char>, s: bytes)
    requires forall i :: 0 <= i < |s| ==> s[i] != '"' && s[i] != '\\' && s[i] >= ' '
    ensures Machines.Run(Step, Open(stack, Compact.Inside), s) == Machines.Advance(Open(stack, Compact.Inside), [])
  {
    if |s| > 0 { InsidePlain(stack, s[..|s| - 1]); }
  }

  lemma {:induction false} InsideBody(stack: seq<char>, s: bytes)
    requires StringBody(s)
    ensures Machines.Run(Step, Open(stack, Compact.Inside), s) == Machines.Advance(Open(stack, Compact.Inside), [])
    decreases |s|
  {
    if |s| > 0 {
      var n := if s[0] == '\\' then if s[1] == 'u' then 6 else 2 else 1;
      assert s == s[..n] + s[n..];
      InsideBody(stack, s[n..]);
      InsideHead(stack, s, n);
      Machines.RunAppend(Step, Open(stack, Compact.Inside), s[..n], s[n..]);
    }
  }

  lemma InsideHead(stack: seq<char>, s: bytes, n: nat)
    requires |s| > 0 && StringBody(s) && n == (if s[0] == '\\' then if s[1] == 'u' then 6 else 2 else 1)
    ensures Machines.Run(Step, Open(stack, Compact.Inside), s[..n]) == Machines.Advance(Open(stack, Compact.Inside), [])
  {
    var inside, escaped := Open(stack, Compact.Inside), Open(stack, Compact.Escaped);
    if s[0] == '\\' {
      assert s[..2] == [s[0]] + [s[1]];
      Machines.RunOne(Step, inside, s[0]);
      Machines.RunOne(Step, escaped, s[1]);
      Machines.RunAppend(Step, inside, [s[0]], [s[1]]);
      if s[1] == 'u' {
        assert s[..6] == s[..2] + s[2..6];
        assert forall i :: 2 <= i < 6 ==> IsHex(s[i]);
        InsidePlain(stack, s[2..6]);
        Machines.RunAppend(Step, inside, s[..2], s[2..6]);
      }
    } else {
      assert s[..1] == [s[0]];
      Machines.RunOne(Step, inside, s[0]);
    }
  }

  lemma PassesQuoted(stack: seq<char>, body: bytes)
    requires StringBody(body) && |stack| > 0
    ensures Passes(stack, Quoted(body))
  {
    var outside, inside := Open(stack, Compact.Outside), Open(stack, Compact.Inside);
    InsideBody(stack, body);
    Machines.RunOne(Step, outside, '"');
    Machines.RunOne(Step, inside, '"');
    Machines.RunAppend(Step, outside, "\"", body);
    Machines.RunAppend(Step, outside, "\"" + body, "\"");
  }

  lemma PassesToken(stack: seq<char>, token: bytes)
    requires ScalarToken(token)
    ensures Passes(stack, token)
  {
    ScalarTokenPlain(token);
    PassesPlain(stack, token);
  }

  /** Inside open brackets, every value leaves the scanner as it found it. */
  lemma {:induction false} PassesValue(stack: seq<char>, v: Value)
    requires WellFormed(v) && |stack| > 0 && |stack| + Depth(v) <= MAX_NEST
    ensures Passes(stack, Text(v))
    decreases v, 2
  {
    match v {
      case Lit(token) => PassesToken(stack, token);
      case Str(body) => PassesQuoted(stack, body);
      case Obj(ms, pad) => PassesInner(stack, v);
      case Arr(items, pad) => PassesInner(stack, v);
    }
  }

  /** What is between the brackets of a value. */
  function Inner(v: Value): bytes {
    match v
    case Obj(ms, pad) => MembersText(ms) + (if ms.NoMembers? then pad else "")
    case Arr(items, pad) => ItemsText(items) + (if items.NoItems? then pad else "")
    case _ => ""
  }

  function Opening(v: Value): char {
    if v.Obj? then '{' else '['
  }

  function Closing(v: Value): char {
    if v.Obj? then '}' else ']'
  }

  lemma TextIsBracketed(v: Value)
    requires v.Obj? || v.Arr?
    ensures Text(v) == [Opening(v)] + Inner(v) + [Closing(v)]
  {
    if v.Obj? {
      var filler := if v.members.NoMembers? then v.pad else "";
      assert Text(v) == "{" + MembersText(v.members) + filler + "}";
      assert "{" + MembersText(v.members) + filler + "}" == "{" + (MembersText(v.members) + filler) + "}";
    } else {
      var filler := if v.items.NoItems? then v.pad else "";
      assert Text(v) == "[" + ItemsText(v.items) + filler + "]";
      assert "[" + ItemsText(v.items) + filler + "]" == "[" + (ItemsText(v.items) + filler) + "]";
    }
  }

  lemma PassesBracketed(stack: seq<char>, o: char, inner: bytes, c: char)
    requires 0 < |stack| < MAX_NEST && Passes(stack + [o], inner) && ((o == '{' && c == '}') || (o == '[' && c == ']'))
    ensures Passes(stack, [o] + inner + [c])
  {
    var s0, s1 := Open(stack, Compact.Outside), Open(stack + [o], Compact.Outside);
    assert (stack + [o])[..|stack|] == stack;
    Machines.RunOne(Step, s0, o);
    Machines.RunOne(Step, s1, c);
    hide Step;
    Machines.RunAppend(Step, s0, [o], inner);
    Machines.RunAppend(Step, s0, [o] + inner, [c]);
  }

  lemma {:induction false} PassesInner(stack: seq<char>, v: Value)
    requires (v.Obj? || v.Arr?) && WellFormed(v) && |stack| + Depth(v) <= MAX_NEST
    ensures Passes(stack + [Opening(v)], Inner(v))
    ensures |stack| > 0 ==> Passes(stack, Text(v))
    decreases v, 1
  {
    hide Passes;
    var inner := stack + [Opening(v)];
    if v.Obj? { PassesMembers(inner, v.members); } else { PassesItems(inner, v.items); }
    PassesPlain(inner, "");
    PassesBlank(inner, v.pad);
    if v.Obj? {
      PassesParts(inner, MembersText(v.members), if v.members.NoMembers? then v.pad else "");
    } else {
      PassesParts(inner, ItemsText(v.items), if v.items.NoItems? then v.pad else "");
    }
    TextIsBracketed(v);
    if |stack| > 0 { PassesBracketed(stack, Opening(v), Inner(v), Closing(v)); }
  }

  lemma {:induction false} PassesMembers(stack: seq<char>, ms: Members)
    requires WellFormedMembers(ms) && |stack| > 0 && |stack| + MembersDepth(ms) <= MAX_NEST
    ensures Passes(stack, MembersText(ms))
    decreases ms, 0
  {
    hide Passes, StringBody;
    match ms {
      case NoMembers => PassesPlain(stack, "");
      case AddMember(front, gap, key, pre, post, value, tail) =>
        PassesMembers(stack, front);
        PassesValue(stack, value);
        var comma := if front.NoMembers? then "" else ",";
        PassesPlain(stack, comma);
        PassesPlain(stack, ":");
        PassesBlank(stack, gap);
        PassesBlank(stack, pre);
        PassesBlank(stack, post);
        PassesBlank(stack, tail);
        PassesQuoted(stack, key);
        var f := MembersText(front);
        PassesParts(stack, f, comma);
        PassesParts(stack, f + comma, gap);
        PassesParts(stack, f + comma + gap, Quoted(key));
        PassesParts(stack, f + comma + gap + Quoted(key), pre);
        PassesParts(stack, f + comma + gap + Quoted(key) + pre, ":");
        PassesParts(stack, f + comma + gap + Quoted(key) + pre + ":", post);
        PassesParts(stack, f + comma + gap + Quoted(key) + pre + ":" + post, Text(value));
        PassesParts(stack, f + comma + gap + Quoted(key) + pre + ":" + post + Text(value), tail);
    }
  }

  lemma {:induction false} PassesItems(stack: seq<char>, items: Items)
    requires WellFormedItems(items) && |stack| > 0 && |stack| + ItemsDepth(items) <= MAX_NEST
    ensures Passes(stack, ItemsText(items))
    decreases items, 0
  {
    hide Passes;
    match items {
      case NoItems => PassesPlain(stack, "");
      case AddItem(before, gap, value, tail) =>
        PassesItems(stack, before);
        PassesValue(stack, value);
        var comma := if before.NoItems? then "" else ",";
        PassesPlain(stack, comma);
        PassesBlank(stack, gap);
        PassesBlank(stack, tail);
        var f := ItemsText(before);
        PassesParts(stack, f, comma);
        PassesParts(stack, f + comma, gap);
        PassesParts(stack, f + comma + gap, Text(value));
        PassesParts(stack, f + comma + gap + Text(value), tail);
    }
  }

  // ---- Where values end ---------------------------------------------------------------------------

  /** `text` stands in `data` at `i`. */
  predicate At(data: bytes, i: nat, text: bytes) {
    i + |text| <= |data| && data[i..i + |text|] == text
  }

  lemma AtParts(data: bytes, i: nat, a: bytes, b: bytes)
    requires At(data, i, a + b)
    ensures At(data, i, a) && At(data, i + |a|, b)
  {
    var whole := data[i..i + |a + b|];
    assert whole[..|a|] == a && whole[|a|..] == b;
    assert data[i..i + |a|] == whole[..|a|];
    assert data[i + |a|..i + |a| + |b|] == whole[|a|..];
  }

  /** Scanning `text` leads from one state to another. */
  lemma {:induction false} EndSkips(s: Loose, data: bytes, i: nat, text: bytes, s1: Loose)
    requires At(data, i, text) && Machines.Run(Step, s, text) == Machines.Advance(s1, [])
    ensures End(s, data, i) == End(s1, data, i + |text|)
    decreases |text|
  {
    if |text| > 0 {
      Machines.RunCons(Step, s, text);
      assert text == [text[0]] + text[1..];
      AtParts(data, i, [text[0]], text[1..]);
      assert data[i] == data[i..i + 1][0];
      if !s.Shut? {
        var next := Step(s, text[0]);
        if next.Advance? {
          StepQuiet(s, text[0]);
          var r := Machines.Run(Step, next.next, text[1..]);
          if r.Advance? { assert [] + r.events == r.events; }
          EndSkips(next.next, data, i + 1, text[1..], s1);
        }
      }
    }
  }

  lemma StepQuiet(s: Loose, b: char)
    ensures Step(s, b).Advance? ==> Step(s, b).events == []
  {
  }

  lemma EndOfString(data: bytes, i: nat, body: bytes)
    requires StringBody(body) && At(data, i, Quoted(body))
    ensures StringEnd(data, i) == Some(i + |Quoted(body)|)
  {
    assert Quoted(body) == "\"" + (body + "\"");
    AtParts(data, i, "\"", body + "\"");
    assert data[i] == data[i..i + 1][0];
    InsideBody([], body);
    Machines.RunOne(Step, IN_STRING, '"');
    Machines.RunAppend(Step, IN_STRING, body, "\"");
    EndSkips(IN_STRING, data, i + 1, body + "\"", Shut);
  }

  lemma EndsAtBracket(o: char, inner: bytes, c: char)
    requires Passes([o], inner) && ((o == '{' && c == '}') || (o == '[' && c == ']'))
    ensures Machines.Run(Step, Open([o], Compact.Outside), inner + [c]) == Machines.Advance(Shut, [])
  {
    Machines.RunOne(Step, Open([o], Compact.Outside), c);
    assert Step(Open([o], Compact.Outside), c) == Machines.Advance(Shut, []);
    hide Step;
    Machines.RunAppend(Step, Open([o], Compact.Outside), inner, [c]);
  }

  lemma EndOfBracketed(data: bytes, i: nat, o: char, inner: bytes, c: char)
    requires Passes([o], inner) && ((o == '{' && c == '}') || (o == '[' && c == ']')) && At(data, i, [o] + inner + [c])
    ensures ValueEnd(data, i) == Some(i + 1 + |inner + [c]|)
  {
    assert [o] + inner + [c] == [o] + (inner + [c]);
    AtParts(data, i, [o], inner + [c]);
    assert data[i] == data[i..i + 1][0];
    EndsAtBracket(o, inner, c);
    EndShut(data, i + 1 + |inner + [c]|);
    assert ValueEnd(data, i) == End(Open([o], Compact.Outside), data, i + 1);
    hide ValueEnd, End, Step, Passes;
    EndSkips(Open([o], Compact.Outside), data, i + 1, inner + [c], Shut);
  }

  lemma EndOfContainer(data: bytes, i: nat, v: Value)
    requires (v.Obj? || v.Arr?) && WellFormed(v) && Depth(v) <= MAX_NEST && At(data, i, Text(v))
    ensures ValueEnd(data, i) == Some(i + |Text(v)|)
  {
    TextIsBracketed(v);
    PassesInner([], v);
    assert [] + [Opening(v)] == [Opening(v)];
    hide Text, WellFormed, Passes, Inner, ValueEnd;
    EndOfBracketed(data, i, Opening(v), Inner(v), Closing(v));
  }

  lemma EndShut(data: bytes, i: nat)
    ensures End(Shut, data, i) == Some(i)
  {
  }

  lemma {:induction false} EndOfScalar(data: bytes, i: nat, token: bytes, k: nat)
    requires At(data, i, token) && k <= |token| && forall j :: 0 <= j < |token| ==> !IsDelimiter(token[j])
    requires i + |token| < |data| ==> IsDelimiter(data[i + |token|])
    ensures ScalarEnd(data, i + k) == i + |token|
    decreases |token| - k
  {
    if k < |token| {
      assert data[i + k] == data[i..i + |token|][k];
      EndOfScalar(data, i, token, k + 1);
    }
  }

  /** On a valid value the scanner finds exactly its end.  A number or literal must be
      followed by something that ends it, as it is in every document. */
  lemma SkipsExactly(data: bytes, i: nat, v: Value)
    requires WellFormed(v) && Depth(v) <= MAX_NEST && At(data, i, Text(v))
    requires v.Lit? && i + |Text(v)| < |data| ==> IsDelimiter(data[i + |Text(v)|])
    ensures ValueEnd(data, i) == Some(i + |Text(v)|)
  {
    match v {
      case Lit(token) =>
        ScalarTokenShape(token);
        EndOfScalar(data, i, token, 0);
        assert data[i] == data[i..i + |token|][0];
      case Str(body) =>
        EndOfString(data, i, body);
        assert data[i] == data[i..i + |Quoted(body)|][0];
      case Obj(_, _) => EndOfContainer(data, i, v);
      case Arr(_, _) => EndOfContainer(data, i, v);
    }
  }
}
