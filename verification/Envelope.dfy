/** The request envelope: the top level of a request body, walked without building it. */
module Envelope {
  // The walk bounds the number and the length of the fields and finds repeated ones.  On every
  // well-formed object it sees exactly the keys of the object.

  import opened GoText
  import opened JsonGrammar
  import opened LooseScanner

  datatype Verdict = Good | BadShape | FieldTooLong | TooManyFields | Duplicate

  const MAX_FIELDS: nat := 256
  const MAX_KEY: nat := 256
  const MAX_RAW_KEY: nat := 1536

  function SkipBlanks(data: bytes, i: nat): (j: nat)
    ensures i <= j && (i <= |data| ==> j <= |data|)
    decreases |data| - i
  {
    if i < |data| && IsBlank(data[i]) then SkipBlanks(data, i + 1) else i
  }

  predicate IsAt(data: bytes, i: nat, b: char) {
    i < |data| && data[i] == b
  }

  // ---- Keys ----------------------------------------------------------------------------

  /** The verdict on decoded keys, in order: the first fault counts. */
  function JudgeKeys(keys: seq<bytes>, seen: set<bytes>): Verdict {
    if |keys| == 0 then Good
    else if !StringBody(keys[0]) then BadShape
    else
      var key := Unquote(keys[0]);
      if |key| > MAX_KEY then FieldTooLong
      else if key in seen then Duplicate
      else JudgeKeys(keys[1..], seen + {key})
  }

  method ValidateKeys(keys: seq<bytes>) returns (v: Verdict)
    ensures v == JudgeKeys(keys, {})
  {
    hide Unquote, StringBody;
    var seen: set<bytes> := {};
    var i := 0;
    while i < |keys|
      invariant 0 <= i <= |keys|
      invariant JudgeKeys(keys, {}) == JudgeKeys(keys[i..], seen)
    {
      assert keys[i..][1..] == keys[i + 1..];
      if !StringBody(keys[i]) { return BadShape; }
      var key := Unquote(keys[i]);
      if |key| > MAX_KEY { return FieldTooLong; }
      if key in seen { return Duplicate; }
      seen := seen + {key};
      i := i + 1;
    }
    return Good;
  }

  /** The escapes of every key decode. */
  predicate DecodableKeys(keys: seq<bytes>) {
    forall i :: 0 <= i < |keys| ==> StringBody(keys[i])
  }

  predicate ShortKeys(keys: seq<bytes>) {
    forall i :: 0 <= i < |keys| ==> |Unquote(keys[i])| <= MAX_KEY
  }

  predicate DistinctKeys(keys: seq<bytes>) {
    forall i, j :: 0 <= i < j < |keys| ==> Unquote(keys[i]) != Unquote(keys[j])
  }

  lemma {:induction false} JudgeKeysMeans(keys: seq<bytes>, seen: set<bytes>)
    ensures var unseen := DistinctKeys(keys) && forall i :: 0 <= i < |keys| ==> Unquote(keys[i]) !in seen;
      (JudgeKeys(keys, seen) == Good <==> DecodableKeys(keys) && ShortKeys(keys) && unseen)
      && (DecodableKeys(keys) && ShortKeys(keys) && !unseen ==> JudgeKeys(keys, seen) == Duplicate)
  {
    hide Unquote, StringBody;
    if |keys| > 0 {
      var rest, key := keys[1..], Unquote(keys[0]);
      assert forall i :: 0 <= i < |rest| ==> rest[i] == keys[i + 1];
      assert forall i :: 0 < i < |keys| ==> keys[i] == rest[i - 1];
      JudgeKeysMeans(rest, seen + {key});
    }
  }

  /** Keys are good exactly when all decode, none is too long and no two denote the same
      name; among keys that decode and are short enough a duplicate is what is reported. */
  lemma DuplicatesAreFound(keys: seq<bytes>)
    ensures JudgeKeys(keys, {}) == Good <==> DecodableKeys(keys) && ShortKeys(keys) && DistinctKeys(keys)
    ensures DecodableKeys(keys) && ShortKeys(keys) ==> JudgeKeys(keys, {}) == if DistinctKeys(keys) then Good else Duplicate
  {
    hide Unquote, StringBody;
    JudgeKeysMeans(keys, {});
  }

  // ---- The walk --------------------------------------------------------------------------

  /** From the opening quote of a key; `keys` are the raw keys before it. */
  function FieldsFrom(data: bytes, i: nat, keys: seq<bytes>): Verdict
    decreases |data| - i, 1
  {
    match StringEnd(data, i)
    case None => BadShape
    case Some(end) =>
      if end - i - 2 > MAX_RAW_KEY then FieldTooLong
      else if |keys| + 1 > MAX_FIELDS then TooManyFields
      else
        var colon := SkipBlanks(data, end);
        if !IsAt(data, colon, ':') then BadShape
        else
          match ValueEnd(data, SkipBlanks(data, colon + 1))
          case None => BadShape
          case Some(after) => Separator(data, SkipBlanks(data, after), keys + [data[i + 1..end - 1]])
  }

  /** From the comma or brace after a value. */
  function Separator(data: bytes, i: nat, keys: seq<bytes>): Verdict
    decreases |data| - i, 0
  {
    if IsAt(data, i, ',') then FieldsFrom(data, SkipBlanks(data, i + 1), keys)
    else if IsAt(data, i, '}') then
      if SkipBlanks(data, i + 1) == |data| then JudgeKeys(keys, {}) else BadShape
    else BadShape
  }

  function Judge(data: bytes): Verdict {
    var i := SkipBlanks(data, 0);
    if !IsAt(data, i, '{') then BadShape
    else
      var j := SkipBlanks(data, i + 1);
      if IsAt(data, j, '}') then if SkipBlanks(data, j + 1) == |data| then Good else BadShape
      else FieldsFrom(data, j, [])
  }

  method SkipWhitespace(data: bytes, start: nat) returns (index: nat)
    ensures index == SkipBlanks(data, start)
  {
    index := start;
    while index < |data| && IsBlank(data[index])
      invariant SkipBlanks(data, start) == SkipBlanks(data, index)
    {
      index := index + 1;
    }
  }

  lemma KeyInside(data: bytes, i: nat)
    requires StringEnd(data, i).Some?
    ensures i + 2 <= StringEnd(data, i).value <= |data|
  {
    EndNotShut(IN_STRING, data, i + 1);
  }

  /** validateTopLevelEnvelope. */
  method ValidateTopLevelEnvelope(data: bytes) returns (v: Verdict)
    ensures v == Judge(data)
  {
    hide StringEnd, ValueEnd, SkipBlanks, JudgeKeys;
    var index := SkipWhitespace(data, 0);
    if index >= |data| || data[index] != '{' { return BadShape; }
    index := SkipWhitespace(data, index + 1);
    if index < |data| && data[index] == '}' {
      index := SkipWhitespace(data, index + 1);
      return if index != |data| then BadShape else Good;
    }
    var keys: seq<bytes> := [];
    while true
      invariant Judge(data) == FieldsFrom(data, index, keys)
      decreases |data| - index
    {
      var keyStart := index;
      var keyEnd := ScanString(data, index);
      if keyEnd.None? { return BadShape; }
      if keyEnd.value - keyStart - 2 > MAX_RAW_KEY { return FieldTooLong; }
      if |keys| + 1 > MAX_FIELDS { return TooManyFields; }
      KeyInside(data, keyStart);
      keys := keys + [data[keyStart + 1..keyEnd.value - 1]];
      index := SkipWhitespace(data, keyEnd.value);
      if index >= |data| || data[index] != ':' { return BadShape; }
      index := SkipWhitespace(data, index + 1);
      var end := SkipValue(data, index);
      if end.None? { return BadShape; }
      index := SkipWhitespace(data, end.value);
      if index >= |data| { return BadShape; }
      if data[index] == ',' {
        index := SkipWhitespace(data, index + 1);
      } else if data[index] == '}' {
        index := SkipWhitespace(data, index + 1);
        if index != |data| { return BadShape; }
        v := ValidateKeys(keys);
        return;
      } else {
        return BadShape;
      }
    }
  }

  // ---- The walk and the tree -----------------------------------------------------------------

  function KeysOf(ms: Members): seq<bytes> {
    match ms
    case NoMembers => []
    case AddMember(front, _, key, _, _, _, _) => KeysOf(front) + [key]
  }

  /** The fault of the first key that breaks a limit, if one does. */
  function FirstLimit(ms: Members): Option<Verdict> {
    match ms
    case NoMembers => None
    case AddMember(front, _, key, _, _, _, _) =>
      if FirstLimit(front).Some? then FirstLimit(front)
      else if |key| > MAX_RAW_KEY then Some(FieldTooLong)
      else if |KeysOf(ms)| > MAX_FIELDS then Some(TooManyFields)
      else None
  }

  /** What the walk says of an object. */
  function Expected(ms: Members): Verdict {
    if FirstLimit(ms).Some? then FirstLimit(ms).value else JudgeKeys(KeysOf(ms), {})
  }

  lemma {:induction false} SkipsBlank(data: bytes, i: nat, gap: bytes)
    requires At(data, i, gap) && Blank(gap)
    requires i + |gap| < |data| ==> !IsBlank(data[i + |gap|])
    ensures SkipBlanks(data, i) == i + |gap|
    decreases |gap|
  {
    if |gap| > 0 {
      assert gap == [gap[0]] + gap[1..];
      AtParts(data, i, [gap[0]], gap[1..]);
      assert data[i] == data[i..i + 1][0];
      SkipsBlank(data, i + 1, gap[1..]);
    }
  }

  lemma FirstByte(data: bytes, i: nat, text: bytes)
    requires At(data, i, text) && |text| > 0
    ensures i < |data| && data[i] == text[0]
  {
    assert data[i] == data[i..i + |text|][0];
  }

  /** What follows the value of a member: its tail, and then a comma or the brace. */
  lemma ValueDelimited(data: bytes, i: nat, tail: bytes)
    requires At(data, i, tail) && Blank(tail) && i + |tail| < |data| && data[i + |tail|] in ",}"
    ensures i < |data| && IsDelimiter(data[i])
  {
    if |tail| > 0 { FirstByte(data, i, tail); }
  }

  lemma TextStarts(v: Value)
    requires WellFormed(v)
    ensures |Text(v)| > 0 && !IsBlank(Text(v)[0])
  {
    if v.Lit? { ScalarTokenShape(v.token); }
    if v.Obj? || v.Arr? { TextIsBracketed(v); }
  }

  lemma KeySlice(data: bytes, i: nat, key: bytes)
    requires At(data, i, Quoted(key))
    ensures data[i + 1..i + |Quoted(key)| - 1] == key
  {
    var a := Quoted(key);
    assert a[1..|a| - 1] == key;
    assert data[i + 1..i + |a| - 1] == data[i..i + |a|][1..|a| - 1];
  }

  /** A key and its colon. */
  lemma WalkKey(data: bytes, i: nat, key: bytes, pre: bytes, post: bytes)
    requires StringBody(key) && Blank(pre) && Blank(post) && At(data, i, Quoted(key) + pre + ":" + post)
    requires var n := i + |Quoted(key) + pre + ":" + post|; n < |data| && !IsBlank(data[n])
    ensures var end, colon := i + |Quoted(key)|, i + |Quoted(key) + pre|;
      StringEnd(data, i) == Some(end) && data[i + 1..end - 1] == key && SkipBlanks(data, end) == colon && IsAt(data, colon, ':')
      && SkipBlanks(data, colon + 1) == i + |Quoted(key) + pre + ":" + post|
  {
    hide StringEnd, SkipBlanks, StringBody, At;
    var a, b, c := Quoted(key), Quoted(key) + pre, Quoted(key) + pre + ":";
    AtParts(data, i, c, post);
    AtParts(data, i, b, ":");
    AtParts(data, i, a, pre);
    EndOfString(data, i, key);
    KeySlice(data, i, key);
    FirstByte(data, i + |b|, ":");
    SkipsBlank(data, i + |a|, pre);
    SkipsBlank(data, i + |c|, post);
  }

  /** A value and its tail. */
  lemma WalkValue(data: bytes, i: nat, value: Value, tail: bytes)
    requires Blank(tail) && WellFormed(value) && Depth(value) <= MAX_NEST
    requires At(data, i, Text(value) + tail) && i + |Text(value) + tail| < |data| && data[i + |Text(value) + tail|] in ",}"
    ensures i < |data| && !IsBlank(data[i]) && ValueEnd(data, i) == Some(i + |Text(value)|)
    ensures SkipBlanks(data, i + |Text(value)|) == i + |Text(value) + tail|
  {
    hide Text, ValueEnd, SkipBlanks, WellFormed, At;
    AtParts(data, i, Text(value), tail);
    TextStarts(value);
    FirstByte(data, i, Text(value));
    ValueDelimited(data, i + |Text(value)|, tail);
    SkipsExactly(data, i, value);
    SkipsBlank(data, i + |Text(value)|, tail);
  }

  /** One member, from its opening quote to what follows it. */
  lemma WalkMember(data: bytes, i: nat, keys: seq<bytes>, key: bytes, pre: bytes, post: bytes, value: Value, tail: bytes)
    requires StringBody(key) && Blank(pre) && Blank(post) && Blank(tail) && WellFormed(value) && Depth(value) <= MAX_NEST
    requires At(data, i, Quoted(key) + pre + ":" + post + (Text(value) + tail))
    requires var n := i + |Quoted(key) + pre + ":" + post| + |Text(value) + tail|; n < |data| && data[n] in ",}"
    ensures FieldsFrom(data, i, keys)
            == if |key| > MAX_RAW_KEY then FieldTooLong else if |keys| + 1 > MAX_FIELDS then TooManyFields
               else Separator(data, i + |Quoted(key) + pre + ":" + post| + |Text(value) + tail|, keys + [key])
  {
    hide Text, StringEnd, ValueEnd, SkipBlanks, Separator, WellFormed, StringBody, At;
    var lead := Quoted(key) + pre + ":" + post;
    AtParts(data, i, lead, Text(value) + tail);
    WalkValue(data, i + |lead|, value, tail);
    WalkKey(data, i, key, pre, post);
  }

  /** The text of a member. */
  function MemberLead(ms: Members): bytes
    requires ms.AddMember?
  {
    Quoted(ms.key) + ms.preColon + ":" + ms.postColon
  }

  function MemberRest(ms: Members): bytes
    requires ms.AddMember?
  {
    Text(ms.value) + ms.tail
  }

  function MemberText(ms: Members): (t: bytes)
    requires ms.AddMember?
    ensures |t| > 0 && t[0] == '"'
  {
    MemberLead(ms) + MemberRest(ms)
  }

  function Comma(ms: Members): bytes {
    if ms.NoMembers? then "" else ","
  }

  lemma MemberTextSplits(ms: Members)
    requires ms.AddMember?
    ensures MembersText(ms) == MembersText(ms.front) + Comma(ms.front) + ms.gap + MemberText(ms)
  {
    hide Text;
    var lead := MembersText(ms.front) + Comma(ms.front) + ms.gap;
    Regroup(lead, Quoted(ms.key), ms.preColon, ":", ms.postColon, Text(ms.value), ms.tail);
  }

  lemma Regroup(a: bytes, b: bytes, c: bytes, d: bytes, e: bytes, f: bytes, g: bytes)
    ensures a + b + c + d + e + f + g == a + ((b + c + d + e) + (f + g))
  {
  }

  lemma AtFour(data: bytes, i: nat, a: bytes, b: bytes, c: bytes, d: bytes)
    requires At(data, i, a + b + c + d)
    ensures At(data, i, a) && At(data, i + |a|, b) && At(data, i + |a| + |b|, c) && At(data, i + |a| + |b| + |c|, d)
    ensures |a + b + c + d| == |a| + |b| + |c| + |d|
  {
    hide At;
    AtParts(data, i, a + b + c, d);
    AtParts(data, i, a + b, c);
    AtParts(data, i, a, b);
  }

  /** Where the parts of a list of members stand. */
  function GapAt(start: nat, ms: Members): nat
    requires ms.AddMember?
  {
    start + |MembersText(ms.front)| + |Comma(ms.front)|
  }

  function MemberAt(start: nat, ms: Members): nat
    requires ms.AddMember?
  {
    GapAt(start, ms) + |ms.gap|
  }

  predicate MembersStand(data: bytes, start: nat, ms: Members)
    requires ms.AddMember?
  {
    At(data, start, MembersText(ms.front)) && At(data, start + |MembersText(ms.front)|, Comma(ms.front))
    && At(data, GapAt(start, ms), ms.gap) && At(data, MemberAt(start, ms), MemberText(ms))
    && start + |MembersText(ms)| == MemberAt(start, ms) + |MemberText(ms)|
  }

  lemma MembersAt(data: bytes, start: nat, ms: Members)
    requires ms.AddMember? && At(data, start, MembersText(ms))
    ensures MembersStand(data, start, ms)
  {
    hide At, MembersText, Comma, MemberText;
    MemberTextSplits(ms);
    AtFour(data, start, MembersText(ms.front), Comma(ms.front), ms.gap, MemberText(ms));
  }

  /** The last member of a list, once the walk has reached the gap before it. */
  lemma WalkLast(data: bytes, start: nat, ms: Members)
    requires ms.AddMember? && WellFormedMembers(ms) && MembersDepth(ms) <= MAX_NEST && MembersStand(data, start, ms)
    requires var end := start + |MembersText(ms)|; end < |data| && data[end] in ",}"
    ensures FieldsFrom(data, SkipBlanks(data, GapAt(start, ms)), KeysOf(ms.front))
            == if |ms.key| > MAX_RAW_KEY then FieldTooLong else if |KeysOf(ms)| > MAX_FIELDS then TooManyFields
               else Separator(data, start + |MembersText(ms)|, KeysOf(ms))
  {
    hide *;
    LastMember(data, start, ms);
    var i, keys := MemberAt(start, ms), KeysOf(ms.front);
    WalkText(data, i, keys, ms);
    FirstByte(data, i, MemberText(ms));
    QuoteIsNoBlank();
    SkipsBlank(data, GapAt(start, ms), ms.gap);
  }

  lemma LastMember(data: bytes, start: nat, ms: Members)
    requires ms.AddMember? && WellFormedMembers(ms) && MembersStand(data, start, ms)
    ensures Blank(ms.gap) && KeysOf(ms) == KeysOf(ms.front) + [ms.key] && |KeysOf(ms)| == |KeysOf(ms.front)| + 1
    ensures var i := MemberAt(start, ms);
      i == GapAt(start, ms) + |ms.gap| && At(data, GapAt(start, ms), ms.gap) && At(data, i, MemberText(ms))
      && i + |MemberText(ms)| == start + |MembersText(ms)|
  {
    hide At, MembersText, MemberText, StringBody, WellFormed;
  }

  lemma FrontFits(ms: Members)
    requires ms.AddMember? && WellFormedMembers(ms) && MembersDepth(ms) <= MAX_NEST
    ensures WellFormedMembers(ms.front) && MembersDepth(ms.front) <= MAX_NEST
    ensures ms.front.NoMembers? ==> FirstLimit(ms.front).None? && KeysOf(ms.front) == []
  {
    hide WellFormed, StringBody;
  }

  lemma GapFirst(start: nat, ms: Members)
    requires ms.AddMember? && ms.front.NoMembers?
    ensures GapAt(start, ms) == start
  {
  }

  lemma QuoteIsNoBlank()
    ensures !IsBlank('"')
  {
  }

  lemma WalkText(data: bytes, i: nat, keys: seq<bytes>, ms: Members)
    requires ms.AddMember? && WellFormedMembers(ms) && MembersDepth(ms) <= MAX_NEST
    requires At(data, i, MemberText(ms)) && i + |MemberText(ms)| < |data| && data[i + |MemberText(ms)|] in ",}"
    ensures FieldsFrom(data, i, keys)
            == if |ms.key| > MAX_RAW_KEY then FieldTooLong else if |keys| + 1 > MAX_FIELDS then TooManyFields
               else Separator(data, i + |MemberText(ms)|, keys + [ms.key])
  {
    hide FieldsFrom, Separator, WellFormed, StringBody, Text, At;
    assert |MemberText(ms)| == |MemberLead(ms)| + |MemberRest(ms)|;
    WalkMember(data, i, keys, ms.key, ms.preColon, ms.postColon, ms.value, ms.tail);
  }

  /** One more member at the end of a list. */
  lemma LimitGrows(ms: Members)
    requires ms.AddMember?
    ensures FirstLimit(ms) == if FirstLimit(ms.front).Some? then FirstLimit(ms.front)
                              else if |ms.key| > MAX_RAW_KEY then Some(FieldTooLong)
                              else if |KeysOf(ms)| > MAX_FIELDS then Some(TooManyFields) else None
  {
  }

  /** All members, from the first opening quote. */
  lemma {:induction false} WalkMembers(data: bytes, start: nat, ms: Members)
    requires ms.AddMember? && WellFormedMembers(ms) && MembersDepth(ms) <= MAX_NEST && At(data, start, MembersText(ms))
    requires var end := start + |MembersText(ms)|; end < |data| && data[end] in ",}"
    ensures FieldsFrom(data, SkipBlanks(data, start), [])
            == if FirstLimit(ms).Some? then FirstLimit(ms).value else Separator(data, start + |MembersText(ms)|, KeysOf(ms))
    decreases ms
  {
    hide *;
    MembersAt(data, start, ms);
    WalkLast(data, start, ms);
    LimitGrows(ms);
    FrontFits(ms);
    if ms.front.AddMember? {
      var i := start + |MembersText(ms.front)|;
      CommaAt(data, start, ms);
      CommaSeparates(data, i);
      WalkMembers(data, start, ms.front);
      SeparatorComma(data, i, KeysOf(ms.front));
    } else {
      GapFirst(start, ms);
    }
  }

  lemma CommaSeparates(data: bytes, i: nat)
    requires IsAt(data, i, ',')
    ensures i < |data| && data[i] in ",}"
  {
  }

  lemma NoMembersText(ms: Members)
    requires ms.NoMembers?
    ensures MembersText(ms) == "" && Comma(ms) == ""
  {
  }

  lemma CommaAt(data: bytes, start: nat, ms: Members)
    requires ms.AddMember? && ms.front.AddMember? && MembersStand(data, start, ms)
    ensures var i := start + |MembersText(ms.front)|;
      At(data, start, MembersText(ms.front)) && IsAt(data, i, ',') && GapAt(start, ms) == i + 1
  {
    hide At, MembersText;
    FirstByte(data, start + |MembersText(ms.front)|, ",");
  }

  lemma SeparatorComma(data: bytes, i: nat, keys: seq<bytes>)
    requires IsAt(data, i, ',')
    ensures Separator(data, i, keys) == FieldsFrom(data, SkipBlanks(data, i + 1), keys)
  {
  }

  lemma JudgeNone()
    ensures JudgeKeys([], {}) == Good
  {
  }

  lemma SeparatorEnd(data: bytes, i: nat, keys: seq<bytes>)
    requires IsAt(data, i, '}') && SkipBlanks(data, i + 1) == |data|
    ensures Separator(data, i, keys) == JudgeKeys(keys, {})
  {
  }

  /** The first byte of an object that is not blank is a quote, not its end. */
  lemma {:induction false} FirstOfMembers(data: bytes, start: nat, ms: Members)
    requires ms.AddMember? && WellFormedMembers(ms) && At(data, start, MembersText(ms))
    ensures IsAt(data, SkipBlanks(data, start), '"')
    decreases ms
  {
    MembersAt(data, start, ms);
    hide SkipBlanks, WellFormed, At;
    if ms.front.AddMember? {
      FirstOfMembers(data, start, ms.front);
    } else {
      NoMembersText(ms.front);
      hide MembersText, MemberText;
      FirstByte(data, MemberAt(start, ms), MemberText(ms));
      SkipsBlank(data, start, ms.gap);
    }
  }

  lemma AtSix(data: bytes, a: bytes, b: bytes, c: bytes, d: bytes, e: bytes, f: bytes)
    requires data == a + (b + c + d + e) + f
    ensures At(data, 0, a) && At(data, |a|, b) && At(data, |a| + |b|, c) && At(data, |a| + |b| + |c|, d)
    ensures At(data, |a| + |b| + |c| + |d|, e) && At(data, |a| + |b| + |c| + |d| + |e|, f)
    ensures |a| + |b| + |c| + |d| + |e| + |f| == |data|
  {
    var inner := b + c + d + e;
    assert At(data, 0, a + inner + f);
    hide At;
    AtParts(data, 0, a + inner, f);
    AtParts(data, 0, a, inner);
    AtFour(data, |a|, b, c, d, e);
  }

  /** Where the parts of an object stand in a document. */
  lemma DocumentAt(d: Document)
    requires d.root.Obj?
    ensures var data, ms := DocumentText(d), d.root.members;
      var filler := if ms.NoMembers? then d.root.pad else "";
      var inside := |d.head| + 1;
      var close := inside + |MembersText(ms)| + |filler|;
      At(data, 0, d.head) && IsAt(data, |d.head|, '{') && At(data, inside, MembersText(ms))
      && At(data, inside + |MembersText(ms)|, filler) && IsAt(data, close, '}') && At(data, close + 1, d.foot)
      && close + 1 + |d.foot| == |data|
  {
    var data, ms := DocumentText(d), d.root.members;
    var text, filler := MembersText(ms), if ms.NoMembers? then d.root.pad else "";
    assert Text(d.root) == "{" + text + filler + "}";
    AtSix(data, d.head, "{", text, filler, "}", d.foot);
    hide Text, MembersText, DocumentText, At;
    FirstByte(data, |d.head|, "{");
    FirstByte(data, |d.head| + 1 + |text| + |filler|, "}");
  }

  lemma EmptyObjectSeen(data: bytes, h: nat, head: bytes, pad: bytes, foot: bytes)
    requires Blank(head) && Blank(pad) && Blank(foot) && h == |head| && At(data, 0, head) && IsAt(data, h, '{')
    requires At(data, h + 1, pad) && IsAt(data, h + 1 + |pad|, '}') && At(data, h + 2 + |pad|, foot) && h + 2 + |pad| + |foot| == |data|
    ensures Judge(data) == Good
  {
    hide FieldsFrom, SkipBlanks, At;
    SkipsBlank(data, 0, head);
    SkipsBlank(data, h + 1, pad);
    SkipsBlank(data, h + 2 + |pad|, foot);
  }

  lemma ObjectSeen(data: bytes, h: nat, head: bytes, ms: Members, foot: bytes)
    requires Blank(head) && Blank(foot) && h == |head| && At(data, 0, head) && IsAt(data, h, '{')
    requires ms.AddMember? && WellFormedMembers(ms) && MembersDepth(ms) <= MAX_NEST && At(data, h + 1, MembersText(ms))
    requires var close := h + 1 + |MembersText(ms)|; IsAt(data, close, '}') && At(data, close + 1, foot) && close + 1 + |foot| == |data|
    ensures Judge(data) == Expected(ms)
  {
    hide FieldsFrom, SkipBlanks, WellFormed, At, MembersText, Separator, JudgeKeys;
    SkipsBlank(data, 0, head);
    var close := h + 1 + |MembersText(ms)|;
    SkipsBlank(data, close + 1, foot);
    WalkMembers(data, h + 1, ms);
    FirstOfMembers(data, h + 1, ms);
    SeparatorEnd(data, close, KeysOf(ms));
  }

  /** On a well-formed object the walk sees exactly its keys. */
  lemma EnvelopeSeesKeys(d: Document)
    requires WellFormedDocument(d) && d.root.Obj? && MembersDepth(d.root.members) <= MAX_NEST
    ensures Judge(DocumentText(d)) == Expected(d.root.members)
  {
    DocumentAt(d);
    assert Blank(d.root.pad) && WellFormedMembers(d.root.members);
    var data, ms := DocumentText(d), d.root.members;
    if ms.NoMembers? {
      NoMembersText(ms);
      JudgeNone();
      hide At, DocumentText, MembersText, Judge;
      EmptyObjectSeen(data, |d.head|, d.head, d.root.pad, d.foot);
    } else {
      hide At, DocumentText, MembersText, Judge, Expected;
      ObjectSeen(data, |d.head|, d.head, ms, d.foot);
    }
  }

  /** Within the limits: accepted exactly when no two keys denote the same name. */
  lemma EnvelopeWithinLimits(d: Document)
    requires WellFormedDocument(d) && d.root.Obj? && MembersDepth(d.root.members) <= MAX_NEST
    requires FirstLimit(d.root.members).None? && ShortKeys(KeysOf(d.root.members))
    ensures Judge(DocumentText(d)) == if DistinctKeys(KeysOf(d.root.members)) then Good else Duplicate
  {
    EnvelopeSeesKeys(d);
    DuplicatesAreFound(KeysOf(d.root.members));
    KeysDecode(d.root.members);
  }

  lemma {:induction false} KeysDecode(ms: Members)
    requires WellFormedMembers(ms)
    ensures DecodableKeys(KeysOf(ms))
  {
    hide StringBody;
    if ms.AddMember? { KeysDecode(ms.front); }
  }

  /** The limits on raw keys are a bound on their number and on each length. */
  lemma {:induction false} LimitsMean(ms: Members)
    ensures FirstLimit(ms).None? <==> |KeysOf(ms)| <= MAX_FIELDS && forall i :: 0 <= i < |KeysOf(ms)| ==> |KeysOf(ms)[i]| <= MAX_RAW_KEY
  {
    if ms.AddMember? {
      LimitsMean(ms.front);
      assert KeysOf(ms)[|KeysOf(ms.front)|] == ms.key;
      assert forall i :: 0 <= i < |KeysOf(ms.front)| ==> KeysOf(ms)[i] == KeysOf(ms.front)[i];
    }
  }
}
