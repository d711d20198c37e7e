/** The grammar is unambiguous: a text is the text of one tree. */
module JsonOneTree {
  // Trees are read off from the left; what follows a value, a comma, a bracket or nothing, shows
  // where it ends.  Members and items are compared from the last one back, once it is clear that
  // there are equally many of them.

  import opened GoText
  import opened JsonGrammar

  /** White space inside brackets is kept only where nothing else is: `pad` is not part of
      the text of an object or array that has something in it. */
  predicate Tidy(v: Value) {
    match v
    case Lit(_) => true
    case Str(_) => true
    case Obj(ms, pad) => TidyMembers(ms) && (ms.AddMember? ==> pad == "")
    case Arr(items, pad) => TidyItems(items) && (items.AddItem? ==> pad == "")
  }

  predicate TidyMembers(ms: Members) {
    match ms
    case NoMembers => true
    case AddMember(front, _, _, _, _, value, _) => TidyMembers(front) && Tidy(value)
  }

  predicate TidyItems(items: Items) {
    match items
    case NoItems => true
    case AddItem(before, _, value, _) => TidyItems(before) && Tidy(value)
  }

  /** What may follow a value. */
  predicate Ends(x: bytes) {
    |x| > 0 ==> IsDelimiter(x[0])
  }

  predicate StartsWith(x: bytes, c: char) {
    |x| > 0 && x[0] == c
  }

  predicate StartsDark(x: bytes) {
    |x| > 0 && !IsBlank(x[0])
  }

  /** What may follow a value and its white space inside brackets. */
  predicate Closes(x: bytes) {
    |x| > 0 && (x[0] == ',' || x[0] == '}' || x[0] == ']')
  }

  // ---- Tokens --------------------------------------------------------------------------

  lemma OneGap(g: bytes, x: bytes, h: bytes, y: bytes)
    requires Blank(g) && Blank(h) && StartsDark(x) && StartsDark(y) && g + x == h + y
    ensures g == h && x == y
  {
    var s := g + x;
    assert forall k :: 0 <= k < |g| ==> s[k] == g[k];
    assert forall k :: 0 <= k < |h| ==> s[k] == h[k];
    assert s[|g|] == x[0] && s[|h|] == y[0];
    assert |g| == |h|;
    assert s[..|g|] == g && s[..|h|] == h && s[|g|..] == x && s[|h|..] == y;
  }

  lemma OneToken(a: bytes, x: bytes, b: bytes, y: bytes)
    requires ScalarToken(a) && ScalarToken(b) && Ends(x) && Ends(y) && a + x == b + y
    ensures a == b && x == y
  {
    ScalarTokenShape(a);
    ScalarTokenShape(b);
    hide ScalarToken, IsDelimiter;
    var s := a + x;
    assert forall k :: 0 <= k < |a| ==> s[k] == a[k];
    assert forall k :: 0 <= k < |b| ==> s[k] == b[k];
    assert |a| < |s| ==> s[|a|] == x[0];
    assert |b| < |s| ==> s[|b|] == y[0];
    assert |a| == |b|;
    assert s[..|a|] == a && s[..|b|] == b && s[|a|..] == x && s[|b|..] == y;
  }

  /** Same first k bytes, and the same goes on. */
  lemma Shift(a: bytes, x: bytes, b: bytes, y: bytes, k: nat)
    requires k <= |a| && k <= |b| && a + x == b + y
    ensures a[..k] == b[..k] && a[k..] + x == b[k..] + y
  {
    var s := a + x;
    assert s[..k] == a[..k] && s[..k] == b[..k];
    assert s[k..] == a[k..] + x && s[k..] == b[k..] + y;
  }

  /** How many bytes the first character of a string body takes. */
  function Unit(s: bytes): (n: nat)
    requires StringBody(s) && |s| > 0
    ensures 0 < n <= |s| && StringBody(s[n..])
  {
    if s[0] == '\\' then if s[1] == 'u' then 6 else 2 else 1
  }

  lemma SameUnit(a: bytes, x: bytes, b: bytes, y: bytes)
    requires StringBody(a) && StringBody(b) && |a| > 0 && |b| > 0 && a + x == b + y
    ensures Unit(a) == Unit(b)
  {
    var s := a + x;
    assert s[0] == a[0] && s[0] == b[0];
    if a[0] == '\\' { assert s[1] == a[1] && s[1] == b[1]; }
  }

  lemma {:induction false} OneBody(a: bytes, x: bytes, b: bytes, y: bytes)
    requires StringBody(a) && StringBody(b) && StartsWith(x, '"') && StartsWith(y, '"') && a + x == b + y
    ensures a == b && x == y
    decreases |a|
  {
    var s := a + x;
    assert |a| == 0 ==> s[0] == '"';
    assert |b| == 0 ==> s[0] == '"';
    assert (|a| > 0 ==> s[0] == a[0]) && (|b| > 0 ==> s[0] == b[0]);
    if |a| == 0 {
      assert a + x == x && b + y == y;
    } else {
      SameUnit(a, x, b, y);
      var n := Unit(a);
      Shift(a, x, b, y, n);
      OneBody(a[n..], x, b[n..], y);
      assert a == a[..n] + a[n..] && b == b[..n] + b[n..];
    }
  }

  lemma OneQuoted(a: bytes, x: bytes, b: bytes, y: bytes)
    requires StringBody(a) && StringBody(b) && Quoted(a) + x == Quoted(b) + y
    ensures a == b && x == y
  {
    hide StringBody;
    var p, q := a + ("\"" + x), b + ("\"" + y);
    assert Quoted(a) + x == "\"" + p && Quoted(b) + y == "\"" + q;
    assert ("\"" + p)[1..] == p && ("\"" + q)[1..] == q;
    OneBody(a, "\"" + x, b, "\"" + y);
    assert ("\"" + x)[1..] == x && ("\"" + y)[1..] == y;
  }

  lemma OneByte(c: char, x: bytes, d: char, y: bytes)
    requires [c] + x == [d] + y
    ensures c == d && x == y
  {
    assert ([c] + x)[0] == c && ([d] + y)[0] == d;
    assert ([c] + x)[1..] == x && ([d] + y)[1..] == y;
  }

  // ---- Values ----------------------------------------------------------------------------

  /** What kind of value starts with a byte. */
  lemma FirstOfValue(v: Value, x: bytes)
    requires WellFormed(v)
    ensures StartsDark(Text(v) + x)
    ensures var c := (Text(v) + x)[0];
      match v
      case Lit(_) => StartsScalar(c) && c != '"' && c != '{' && c != '['
      case Str(_) => c == '"'
      case Obj(_, _) => c == '{'
      case Arr(_, _) => c == '['
  {
    hide ScalarToken, StringBody, MembersText, ItemsText, WellFormedMembers, WellFormedItems, Blank;
    match v {
      case Lit(token) =>
        ScalarTokenShape(token);
        FirstByte(token, x);
      case Str(body) => FirstByte("\"" + (body + "\""), x);
      case Obj(ms, pad) => FirstByte("{" + MembersText(ms) + (if ms.NoMembers? then pad else "") + "}", x);
      case Arr(items, pad) => FirstByte("[" + ItemsText(items) + (if items.NoItems? then pad else "") + "]", x);
    }
  }

  lemma FirstByte(s: bytes, x: bytes)
    requires |s| > 0
    ensures |s + x| > 0 && (s + x)[0] == s[0]
  {
  }

  lemma {:induction false} OneValue(u: Value, x: bytes, v: Value, y: bytes)
    requires WellFormed(u) && WellFormed(v) && Tidy(u) && Tidy(v) && Ends(x) && Ends(y) && Text(u) + x == Text(v) + y
    ensures u == v && x == y
    decreases u, 2
  {
    hide ScalarToken, StringBody, WellFormedMembers, WellFormedItems, TidyMembers, TidyItems, Ends, Blank, MembersText, ItemsText;
    FirstOfValue(u, x);
    FirstOfValue(v, y);
    match u {
      case Lit(a) => OneToken(a, x, v.token, y);
      case Str(a) => OneQuoted(a, x, v.body, y);
      case Obj(ms, pad) => OneObject(ms, pad, x, v.members, v.pad, y);
      case Arr(items, pad) => OneArray(items, pad, x, v.items, v.pad, y);
    }
  }

  /** A value between white space. */
  lemma {:induction false} OnePadded(g: bytes, u: Value, t: bytes, x: bytes, h: bytes, v: Value, w: bytes, y: bytes)
    requires WellFormed(u) && WellFormed(v) && Tidy(u) && Tidy(v) && Closes(x) && Closes(y)
    requires Blank(g) && Blank(h) && Blank(t) && Blank(w)
    requires g + (Text(u) + (t + x)) == h + (Text(v) + (w + y))
    ensures g == h && u == v && t == w && x == y
    decreases u, 3
  {
    hide Text, WellFormed, Tidy, Blank;
    FirstOfValue(u, t + x);
    FirstOfValue(v, w + y);
    OneGap(g, Text(u) + (t + x), h, Text(v) + (w + y));
    EndsPadded(t, x);
    EndsPadded(w, y);
    OneValue(u, t + x, v, w + y);
    OneGap(t, x, w, y);
  }

  lemma EndsPadded(t: bytes, x: bytes)
    requires Blank(t) && Closes(x)
    ensures Ends(t + x) && StartsDark(x)
  {
    if |t| > 0 { assert (t + x)[0] == t[0]; } else { assert (t + x)[0] == x[0]; }
  }

  // ---- Members -----------------------------------------------------------------------------

  function MemberCount(ms: Members): nat {
    match ms
    case NoMembers => 0
    case AddMember(front, _, _, _, _, _, _) => 1 + MemberCount(front)
  }

  /** The text of a last member and of what follows the object's members. */
  function LastMember(ms: Members, x: bytes): (s: bytes)
    requires ms.AddMember?
  {
    var more := ms.gap + (Quoted(ms.key) + (ms.preColon + (":" + (ms.postColon + (Text(ms.value) + (ms.tail + x))))));
    if ms.front.NoMembers? then more else "," + more
  }

  lemma Regroup(f: bytes, a: bytes, b: bytes, c: bytes, x: bytes)
    ensures f + a + b + c + x == f + (a + (b + (c + x)))
    ensures "" + x == x && f + "" == f
  {
  }

  lemma MembersSplit(ms: Members, x: bytes)
    requires ms.AddMember?
    ensures MembersText(ms) + x == MembersText(ms.front) + LastMember(ms, x)
  {
    hide Quoted, Text;
    var f, v := MembersText(ms.front), ms.postColon + (Text(ms.value) + (ms.tail + x));
    var comma := if ms.front.NoMembers? then "" else ",";
    var k := f + comma + ms.gap + Quoted(ms.key) + ms.preColon + ":";
    Regroup(k, ms.postColon, Text(ms.value), ms.tail, x);
    Regroup(f + comma + ms.gap, Quoted(ms.key), ms.preColon, ":", v);
    Regroup(f, comma, ms.gap, "", Quoted(ms.key) + (ms.preColon + (":" + v)));
  }

  /** As many members, and the same text: the same members. */
  lemma {:induction false} OneMembers(a: Members, x: bytes, b: Members, y: bytes)
    requires WellFormedMembers(a) && WellFormedMembers(b) && TidyMembers(a) && TidyMembers(b)
    requires MemberCount(a) == MemberCount(b) && (MemberCount(a) > 0 ==> Closes(x) && Closes(y))
    requires MembersText(a) + x == MembersText(b) + y
    ensures a == b && x == y
    decreases a, 0
  {
    hide Text, StringBody, LastMember;
    if a.AddMember? {
      MembersSplit(a, x);
      MembersSplit(b, y);
      LastCloses(a, x);
      LastCloses(b, y);
      OneMembers(a.front, LastMember(a, x), b.front, LastMember(b, y));
      OneLast(a, x, b, y);
    } else {
      assert "" + x == x && "" + y == y;
    }
  }

  lemma LastCloses(ms: Members, x: bytes)
    requires ms.AddMember?
    ensures MemberCount(ms.front) > 0 ==> Closes(LastMember(ms, x))
  {
  }

  lemma {:induction false} OneLast(a: Members, x: bytes, b: Members, y: bytes)
    requires a.AddMember? && b.AddMember? && a.front == b.front && LastMember(a, x) == LastMember(b, y) && Closes(x) && Closes(y)
    requires WellFormedMembers(a) && WellFormedMembers(b) && TidyMembers(a) && TidyMembers(b)
    ensures a == b && x == y
    decreases a.value, 4
  {
    hide Text, StringBody, Blank, WellFormed, Tidy, Closes, Quoted;
    var v, w := a.postColon + (Text(a.value) + (a.tail + x)), b.postColon + (Text(b.value) + (b.tail + y));
    var k, l := a.preColon + (":" + v), b.preColon + (":" + w);
    var p, q := a.gap + (Quoted(a.key) + k), b.gap + (Quoted(b.key) + l);
    if a.front.AddMember? { OneByte(',', p, ',', q); }
    OneKey(a.gap, a.key, k, b.gap, b.key, l);
    OneColon(a.preColon, v, b.preColon, w);
    OnePadded(a.postColon, a.value, a.tail, x, b.postColon, b.value, b.tail, y);
  }

  lemma OneKey(g: bytes, a: bytes, x: bytes, h: bytes, b: bytes, y: bytes)
    requires Blank(g) && Blank(h) && StringBody(a) && StringBody(b) && g + (Quoted(a) + x) == h + (Quoted(b) + y)
    ensures g == h && a == b && x == y
  {
    hide StringBody, Blank;
    OneGap(g, Quoted(a) + x, h, Quoted(b) + y);
    OneQuoted(a, x, b, y);
  }

  lemma OneColon(g: bytes, x: bytes, h: bytes, y: bytes)
    requires Blank(g) && Blank(h) && g + (":" + x) == h + (":" + y)
    ensures g == h && x == y
  {
    hide Blank;
    OneGap(g, ":" + x, h, ":" + y);
    OneByte(':', x, ':', y);
  }

  // ---- How many ----------------------------------------------------------------------------

  function SkipBlanks(s: bytes): bytes {
    if |s| > 0 && IsBlank(s[0]) then SkipBlanks(s[1..]) else s
  }

  lemma {:induction false} SkipGap(g: bytes, x: bytes)
    requires Blank(g) && StartsDark(x)
    ensures SkipBlanks(g + x) == x
  {
    if |g| == 0 {
      assert g + x == x;
    } else {
      SkipGap(g[1..], x);
      assert (g + x)[1..] == g[1..] + x;
    }
  }

  predicate IsClosed(rest: bytes) {
    var s := SkipBlanks(rest);
    |s| > 0 && (s[0] == '}' || s[0] == ']')
  }

  /** `rest` goes on behind n elements with a comma, or with the first of its own. */
  predicate GoesOn(n: nat, rest: bytes) {
    !IsClosed(rest) && (n > 0 ==> StartsWith(rest, ','))
  }

  lemma ClosedGap(g: bytes, c: char, x: bytes)
    requires Blank(g) && (c == '}' || c == ']')
    ensures IsClosed(g + ([c] + x))
  {
    SkipGap(g, [c] + x);
  }

  /** The first n members, and how the text goes on. */
  lemma {:induction false} FirstMembers(ms: Members, n: nat, x: bytes) returns (front: Members, rest: bytes)
    requires n < MemberCount(ms) && WellFormedMembers(ms) && TidyMembers(ms)
    ensures MemberCount(front) == n && WellFormedMembers(front) && TidyMembers(front) && front < ms
    ensures MembersText(ms) + x == MembersText(front) + rest && GoesOn(n, rest)
  {
    hide MembersText, LastMember, GoesOn, Blank, StringBody, WellFormed, Tidy;
    MembersSplit(ms, x);
    if MemberCount(ms) == n + 1 {
      front, rest := ms.front, LastMember(ms, x);
      LastGoesOn(ms, x);
    } else {
      front, rest := FirstMembers(ms.front, n, LastMember(ms, x));
    }
  }

  lemma LastGoesOn(ms: Members, x: bytes)
    requires ms.AddMember? && WellFormedMembers(ms)
    ensures GoesOn(MemberCount(ms.front), LastMember(ms, x))
  {
    hide Text, Blank, StringBody, WellFormed;
    var more := ms.preColon + (":" + (ms.postColon + (Text(ms.value) + (ms.tail + x))));
    if ms.front.NoMembers? {
      assert (Quoted(ms.key) + more)[0] == '"';
      SkipGap(ms.gap, Quoted(ms.key) + more);
    }
  }

  lemma {:induction false} OneObject(a: Members, p: bytes, x: bytes, b: Members, q: bytes, y: bytes)
    requires WellFormedMembers(a) && WellFormedMembers(b) && TidyMembers(a) && TidyMembers(b) && Blank(p) && Blank(q)
    requires (a.AddMember? ==> p == "") && (b.AddMember? ==> q == "") && Text(Obj(a, p)) + x == Text(Obj(b, q)) + y
    ensures a == b && p == q && x == y
    decreases a, 1
  {
    hide WellFormedMembers, TidyMembers, Blank, MembersText, IsClosed;
    ObjectText(a, p, x);
    ObjectText(b, q, y);
    ClosedGap(p, '}', x);
    ClosedGap(q, '}', y);
    OneByte('{', MembersText(a) + (p + ("}" + x)), '{', MembersText(b) + (q + ("}" + y)));
    if MemberCount(a) < MemberCount(b) {
      var front, rest := FirstMembers(b, MemberCount(a), q + ("}" + y));
      OneMembers(a, p + ("}" + x), front, rest);
      assert false;
    } else if MemberCount(b) < MemberCount(a) {
      var front, rest := FirstMembers(a, MemberCount(b), p + ("}" + x));
      OneMembers(front, rest, b, q + ("}" + y));
      assert false;
    } else {
      OneMembers(a, p + ("}" + x), b, q + ("}" + y));
    }
    OneGap(p, "}" + x, q, "}" + y);
    OneByte('}', x, '}', y);
  }

  lemma ObjectText(ms: Members, p: bytes, x: bytes)
    requires ms.AddMember? ==> p == ""
    ensures Text(Obj(ms, p)) + x == "{" + (MembersText(ms) + (p + ("}" + x)))
  {
    hide MembersText;
    assert "{" + MembersText(ms) + p + "}" + x == "{" + (MembersText(ms) + (p + ("}" + x)));
  }

  // ---- Items -------------------------------------------------------------------------------

  function ItemCount(items: Items): nat {
    match items
    case NoItems => 0
    case AddItem(before, _, _, _) => 1 + ItemCount(before)
  }

  function LastItem(items: Items, x: bytes): (s: bytes)
    requires items.AddItem?
  {
    var more := items.gap + (Text(items.value) + (items.tail + x));
    if items.before.NoItems? then more else "," + more
  }

  lemma ItemsSplit(items: Items, x: bytes)
    requires items.AddItem?
    ensures ItemsText(items) + x == ItemsText(items.before) + LastItem(items, x)
  {
    hide Text;
    var f, comma := ItemsText(items.before), if items.before.NoItems? then "" else ",";
    var v := items.gap + (Text(items.value) + (items.tail + x));
    Regroup(f + comma, items.gap, Text(items.value), items.tail, x);
    Regroup(f, comma, "", "", v);
  }

  lemma {:induction false} OneItems(a: Items, x: bytes, b: Items, y: bytes)
    requires WellFormedItems(a) && WellFormedItems(b) && TidyItems(a) && TidyItems(b)
    requires ItemCount(a) == ItemCount(b) && (ItemCount(a) > 0 ==> Closes(x) && Closes(y))
    requires ItemsText(a) + x == ItemsText(b) + y
    ensures a == b && x == y
    decreases a, 0
  {
    hide Text, LastItem;
    if a.AddItem? {
      ItemsSplit(a, x);
      ItemsSplit(b, y);
      LastItemCloses(a, x);
      LastItemCloses(b, y);
      OneItems(a.before, LastItem(a, x), b.before, LastItem(b, y));
      OneLastItem(a, x, b, y);
    } else {
      assert "" + x == x && "" + y == y;
    }
  }

  lemma LastItemCloses(items: Items, x: bytes)
    requires items.AddItem?
    ensures ItemCount(items.before) > 0 ==> Closes(LastItem(items, x))
  {
  }

  lemma {:induction false} OneLastItem(a: Items, x: bytes, b: Items, y: bytes)
    requires a.AddItem? && b.AddItem? && a.before == b.before && LastItem(a, x) == LastItem(b, y) && Closes(x) && Closes(y)
    requires WellFormedItems(a) && WellFormedItems(b) && TidyItems(a) && TidyItems(b)
    ensures a == b && x == y
    decreases a.value, 4
  {
    hide Text, Blank, WellFormed, Tidy, Closes;
    var p, q := a.gap + (Text(a.value) + (a.tail + x)), b.gap + (Text(b.value) + (b.tail + y));
    if a.before.AddItem? { OneByte(',', p, ',', q); }
    OnePadded(a.gap, a.value, a.tail, x, b.gap, b.value, b.tail, y);
  }

  lemma {:induction false} FirstItems(items: Items, n: nat, x: bytes) returns (front: Items, rest: bytes)
    requires n < ItemCount(items) && WellFormedItems(items) && TidyItems(items)
    ensures ItemCount(front) == n && WellFormedItems(front) && TidyItems(front) && front < items
    ensures ItemsText(items) + x == ItemsText(front) + rest && GoesOn(n, rest)
  {
    hide ItemsText, LastItem, GoesOn, Blank, WellFormed, Tidy;
    ItemsSplit(items, x);
    if ItemCount(items) == n + 1 {
      front, rest := items.before, LastItem(items, x);
      LastItemGoesOn(items, x);
    } else {
      front, rest := FirstItems(items.before, n, LastItem(items, x));
    }
  }

  lemma LastItemGoesOn(items: Items, x: bytes)
    requires items.AddItem? && WellFormedItems(items)
    ensures GoesOn(ItemCount(items.before), LastItem(items, x))
  {
    hide Text, Blank, WellFormed;
    if items.before.NoItems? {
      FirstOfValue(items.value, items.tail + x);
      SkipGap(items.gap, Text(items.value) + (items.tail + x));
    }
  }

  lemma {:induction false} OneArray(a: Items, p: bytes, x: bytes, b: Items, q: bytes, y: bytes)
    requires WellFormedItems(a) && WellFormedItems(b) && TidyItems(a) && TidyItems(b) && Blank(p) && Blank(q)
    requires (a.AddItem? ==> p == "") && (b.AddItem? ==> q == "") && Text(Arr(a, p)) + x == Text(Arr(b, q)) + y
    ensures a == b && p == q && x == y
    decreases a, 1
  {
    hide WellFormedItems, TidyItems, Blank, ItemsText, IsClosed;
    ArrayText(a, p, x);
    ArrayText(b, q, y);
    ClosedGap(p, ']', x);
    ClosedGap(q, ']', y);
    OneByte('[', ItemsText(a) + (p + ("]" + x)), '[', ItemsText(b) + (q + ("]" + y)));
    if ItemCount(a) < ItemCount(b) {
      var front, rest := FirstItems(b, ItemCount(a), q + ("]" + y));
      OneItems(a, p + ("]" + x), front, rest);
      assert false;
    } else if ItemCount(b) < ItemCount(a) {
      var front, rest := FirstItems(a, ItemCount(b), p + ("]" + x));
      OneItems(front, rest, b, q + ("]" + y));
      assert false;
    } else {
      OneItems(a, p + ("]" + x), b, q + ("]" + y));
    }
    OneGap(p, "]" + x, q, "]" + y);
    OneByte(']', x, ']', y);
  }

  lemma ArrayText(items: Items, p: bytes, x: bytes)
    requires items.AddItem? ==> p == ""
    ensures Text(Arr(items, p)) + x == "[" + (ItemsText(items) + (p + ("]" + x)))
  {
    hide ItemsText;
    assert "[" + ItemsText(items) + p + "]" + x == "[" + (ItemsText(items) + (p + ("]" + x)));
  }

  // ---- Documents -----------------------------------------------------------------------------

  /** The tree without the pads its text does not show. */
  function Tidied(v: Value): Value {
    match v
    case Lit(_) => v
    case Str(_) => v
    case Obj(ms, pad) => Obj(TidiedMembers(ms), if ms.NoMembers? then pad else "")
    case Arr(items, pad) => Arr(TidiedItems(items), if items.NoItems? then pad else "")
  }

  function TidiedMembers(ms: Members): Members {
    match ms
    case NoMembers => NoMembers
    case AddMember(front, gap, key, pre, post, value, tail) =>
      AddMember(TidiedMembers(front), gap, key, pre, post, Tidied(value), tail)
  }

  function TidiedItems(items: Items): Items {
    match items
    case NoItems => NoItems
    case AddItem(before, gap, value, tail) => AddItem(TidiedItems(before), gap, Tidied(value), tail)
  }

  lemma {:induction false} TidiedIs(v: Value)
    requires WellFormed(v)
    ensures WellFormed(Tidied(v)) && Tidy(Tidied(v)) && Text(Tidied(v)) == Text(v)
    decreases v, 1
  {
    match v {
      case Lit(_) =>
      case Str(_) =>
      case Obj(ms, _) => TidiedMembersAre(ms);
      case Arr(items, _) => TidiedItemsAre(items);
    }
  }

  lemma {:induction false} TidiedMembersAre(ms: Members)
    requires WellFormedMembers(ms)
    ensures WellFormedMembers(TidiedMembers(ms)) && TidyMembers(TidiedMembers(ms)) && MembersText(TidiedMembers(ms)) == MembersText(ms)
    decreases ms, 0
  {
    hide StringBody, Blank;
    if ms.AddMember? {
      TidiedMembersAre(ms.front);
      TidiedIs(ms.value);
    }
  }

  lemma {:induction false} TidiedItemsAre(items: Items)
    requires WellFormedItems(items)
    ensures WellFormedItems(TidiedItems(items)) && TidyItems(TidiedItems(items)) && ItemsText(TidiedItems(items)) == ItemsText(items)
    decreases items, 0
  {
    hide Blank;
    if items.AddItem? {
      TidiedItemsAre(items.before);
      TidiedIs(items.value);
    }
  }

  /** Documents with the same text are the same, but for pads that no text shows. */
  lemma OneTree(d: Document, e: Document)
    requires WellFormedDocument(d) && WellFormedDocument(e) && DocumentText(d) == DocumentText(e)
    ensures d.head == e.head && d.foot == e.foot && Tidied(d.root) == Tidied(e.root)
  {
    hide Text, WellFormed, Tidy, Blank, Tidied;
    var u, v := Tidied(d.root), Tidied(e.root);
    TidiedIs(d.root);
    TidiedIs(e.root);
    FirstOfValue(u, d.foot);
    FirstOfValue(v, e.foot);
    assert DocumentText(d) == d.head + (Text(u) + d.foot) && DocumentText(e) == e.head + (Text(v) + e.foot);
    OneGap(d.head, Text(u) + d.foot, e.head, Text(v) + e.foot);
    EndsBlank(d.foot);
    EndsBlank(e.foot);
    OneValue(u, d.foot, v, e.foot);
  }

  lemma EndsBlank(foot: bytes)
    requires Blank(foot)
    ensures Ends(foot)
  {
  }
}
