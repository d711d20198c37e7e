/** Equality of JSON texts up to white space, which is how streamed tool arguments are compared. */
module Compact {
  // Both texts are compacted, and the results must be the same bytes.  On documents this is
  // equality of the syntax trees without white space, because a text has only one tree (module
  // JsonOneTree).

  import opened GoText
  import opened JsonGrammar
  import JsonOneTree
  import Machines

  /** Where compaction is: between tokens, in a string, or behind a backslash in one. */
  datatype Spot = Outside | Inside | Escaped

  type Squeezed = Machines.Outcome<Spot, char>

  function Squeeze1(s: Spot, b: char): Squeezed {
    match s
    case Outside => if IsBlank(b) then Machines.Advance(Outside, []) else Machines.Advance(if b == '"' then Inside else Outside, [b])
    case Inside => Machines.Advance(if b == '"' then Outside else if b == '\\' then Escaped else Inside, [b])
    case Escaped => Machines.Advance(Inside, [b])
  }

  function Squeeze(s: Spot, text: bytes): Squeezed {
    Machines.Run(Squeeze1, s, text)
  }

  /** The nesting encoding/json accepts. */
  const MAX_NESTING: nat := 10000

  ghost predicate IsJson(text: bytes) {
    exists d: Document :: WellFormedDocument(d) && Depth(d.root) <= MAX_NESTING && DocumentText(d) == text
  }

  /** sameArguments: both are JSON, and the same once compacted. */
  ghost predicate SameArguments(a: bytes, b: bytes) {
    IsJson(a) && IsJson(b) && Squeeze(Outside, a) == Squeeze(Outside, b)
  }

  // ---- Compaction and trees ----------------------------------------------------------------

  /** The tree without its white space. */
  function Stripped(v: Value): Value {
    match v
    case Lit(_) => v
    case Str(_) => v
    case Obj(ms, _) => Obj(StrippedMembers(ms), "")
    case Arr(items, _) => Arr(StrippedItems(items), "")
  }

  function StrippedMembers(ms: Members): Members {
    match ms
    case NoMembers => NoMembers
    case AddMember(front, _, key, _, _, value, _) => AddMember(StrippedMembers(front), "", key, "", "", Stripped(value), "")
  }

  function StrippedItems(items: Items): Items {
    match items
    case NoItems => NoItems
    case AddItem(before, _, value, _) => AddItem(StrippedItems(before), "", Stripped(value), "")
  }

  /** `text` squeezes to `kept`, between tokens before and after. */
  predicate Squeezes(text: bytes, kept: bytes) {
    Squeeze(Outside, text) == Machines.Advance(Outside, kept)
  }

  lemma SqueezesParts(a: bytes, ka: bytes, b: bytes, kb: bytes)
    requires Squeezes(a, ka) && Squeezes(b, kb)
    ensures Squeezes(a + b, ka + kb)
  {
    Machines.RunAppend(Squeeze1, Outside, a, b);
  }

  lemma {:induction false} SqueezesBlank(s: bytes)
    requires Blank(s)
    ensures Squeezes(s, "")
  {
    if |s| > 0 { SqueezesBlank(s[..|s| - 1]); }
  }

  lemma {:induction false} SqueezesToken(s: bytes)
    requires forall i :: 0 <= i < |s| ==> !IsBlank(s[i]) && s[i] != '"'
    ensures Squeezes(s, s)
  {
    if |s| > 0 { SqueezesToken(s[..|s| - 1]); }
  }

  lemma {:induction false} SqueezeBody(s: bytes)
    requires StringBody(s)
    ensures Squeeze(Inside, s) == Machines.Advance(Inside, s)
    decreases |s|
  {
    if |s| > 0 {
      var n := if s[0] == '\\' then if s[1] == 'u' then 6 else 2 else 1;
      assert s == s[..n] + s[n..];
      SqueezeBody(s[n..]);
      SqueezeHead(s, n);
      Machines.RunAppend(Squeeze1, Inside, s[..n], s[n..]);
    }
  }

  lemma {:induction false} SqueezePlain(s: bytes)
    requires forall i :: 0 <= i < |s| ==> s[i] != '"' && s[i] != '\\'
    ensures Squeeze(Inside, s) == Machines.Advance(Inside, s)
  {
    if |s| > 0 { SqueezePlain(s[..|s| - 1]); }
  }

  lemma SqueezeHead(s: bytes, n: nat)
    requires |s| > 0 && StringBody(s) && n == (if s[0] == '\\' then if s[1] == 'u' then 6 else 2 else 1)
    ensures Squeeze(Inside, s[..n]) == Machines.Advance(Inside, s[..n])
  {
    if s[0] == '\\' {
      assert s[..2] == [s[0]] + [s[1]];
      Machines.RunOne(Squeeze1, Inside, s[0]);
      Machines.RunOne(Squeeze1, Escaped, s[1]);
      Machines.RunAppend(Squeeze1, Inside, [s[0]], [s[1]]);
      if s[1] == 'u' {
        assert s[..6] == s[..2] + s[2..6];
        assert forall i :: 2 <= i < 6 ==> IsHex(s[i]);
        SqueezePlain(s[2..6]);
        Machines.RunAppend(Squeeze1, Inside, s[..2], s[2..6]);
      }
    } else {
      assert s[..1] == [s[0]];
      Machines.RunOne(Squeeze1, Inside, s[0]);
    }
  }

  lemma SqueezesQuoted(body: bytes)
    requires StringBody(body)
    ensures Squeezes(Quoted(body), Quoted(body))
  {
    SqueezeBody(body);
    Machines.RunOne(Squeeze1, Outside, '"');
    Machines.RunOne(Squeeze1, Inside, '"');
    Machines.RunAppend(Squeeze1, Outside, "\"", body);
    Machines.RunAppend(Squeeze1, Outside, "\"" + body, "\"");
  }

  lemma SqueezesOne(c: char)
    requires !IsBlank(c) && c != '"'
    ensures Squeezes([c], [c])
  {
    SqueezesToken([c]);
  }

  lemma SqueezesScalar(token: bytes)
    requires ScalarToken(token)
    ensures Squeezes(token, token)
  {
    ScalarTokenShape(token);
    SqueezesToken(token);
  }

  /** Compacting the text of a tree is writing the tree without white space. */
  lemma {:induction false} SqueezesText(v: Value)
    requires WellFormed(v)
    ensures Squeezes(Text(v), Text(Stripped(v)))
    decreases v, 1
  {
    hide Squeezes, ScalarToken, StringBody;
    match v {
      case Lit(token) => SqueezesScalar(token);
      case Str(body) => SqueezesQuoted(body);
      case Obj(ms, pad) =>
        SqueezesMembers(ms);
        var filler := if ms.NoMembers? then pad else "";
        SqueezesBracketed('{', MembersText(ms), MembersText(StrippedMembers(ms)), filler, '}');
        assert Text(Stripped(v)) == "{" + MembersText(StrippedMembers(ms)) + "" + "}";
      case Arr(items, pad) =>
        SqueezesItems(items);
        var filler := if items.NoItems? then pad else "";
        SqueezesBracketed('[', ItemsText(items), ItemsText(StrippedItems(items)), filler, ']');
        assert Text(Stripped(v)) == "[" + ItemsText(StrippedItems(items)) + "" + "]";
    }
  }

  lemma SqueezesBracketed(open: char, inner: bytes, kept: bytes, pad: bytes, close: char)
    requires Squeezes(inner, kept) && Blank(pad) && open in "{[" && close in "}]"
    ensures Squeezes([open] + inner + pad + [close], [open] + kept + "" + [close])
  {
    hide Squeezes;
    SqueezesOne(open);
    SqueezesOne(close);
    SqueezesBlank(pad);
    SqueezesParts([open], [open], inner, kept);
    SqueezesParts([open] + inner, [open] + kept, pad, "");
    SqueezesParts([open] + inner + pad, [open] + kept + "", [close], [close]);
  }

  lemma {:induction false} SqueezesMembers(ms: Members)
    requires WellFormedMembers(ms)
    ensures Squeezes(MembersText(ms), MembersText(StrippedMembers(ms)))
    decreases ms, 0
  {
    hide Squeezes, StringBody;
    match ms {
      case NoMembers => SqueezesBlank("");
      case AddMember(front, gap, key, pre, post, value, tail) =>
        SqueezesMembers(front);
        SqueezesText(value);
        var comma := if front.NoMembers? then "" else ",";
        SqueezesBlank("");
        SqueezesOne(',');
        SqueezesOne(':');
        SqueezesBlank(gap);
        SqueezesBlank(pre);
        SqueezesBlank(post);
        SqueezesBlank(tail);
        SqueezesQuoted(key);
        var f, kf := MembersText(front), MembersText(StrippedMembers(front));
        SqueezesParts(f, kf, comma, comma);
        SqueezesParts(f + comma, kf + comma, gap, "");
        SqueezesParts(f + comma + gap, kf + comma + "", Quoted(key), Quoted(key));
        SqueezesValue(f + comma + gap + Quoted(key), kf + comma + "" + Quoted(key), pre, post, value, tail);
        assert StrippedMembers(front).NoMembers? == front.NoMembers?;
    }
  }

  lemma SqueezesValue(a: bytes, ka: bytes, pre: bytes, post: bytes, value: Value, tail: bytes)
    requires Squeezes(a, ka) && Squeezes(pre, "") && Squeezes(post, "") && Squeezes(tail, "") && Squeezes(Text(value), Text(Stripped(value)))
    ensures Squeezes(a + pre + ":" + post + Text(value) + tail, ka + "" + ":" + "" + Text(Stripped(value)) + "")
  {
    hide Squeezes, Text;
    SqueezesOne(':');
    SqueezesParts(a, ka, pre, "");
    SqueezesParts(a + pre, ka + "", ":", ":");
    SqueezesParts(a + pre + ":", ka + "" + ":", post, "");
    SqueezesParts(a + pre + ":" + post, ka + "" + ":" + "", Text(value), Text(Stripped(value)));
    SqueezesParts(a + pre + ":" + post + Text(value), ka + "" + ":" + "" + Text(Stripped(value)), tail, "");
  }

  lemma {:induction false} SqueezesItems(items: Items)
    requires WellFormedItems(items)
    ensures Squeezes(ItemsText(items), ItemsText(StrippedItems(items)))
    decreases items, 0
  {
    hide Squeezes;
    match items {
      case NoItems => SqueezesBlank("");
      case AddItem(before, gap, value, tail) =>
        SqueezesItems(before);
        SqueezesText(value);
        var comma := if before.NoItems? then "" else ",";
        SqueezesBlank("");
        SqueezesOne(',');
        SqueezesBlank(gap);
        SqueezesBlank(tail);
        var f, kf := ItemsText(before), ItemsText(StrippedItems(before));
        SqueezesParts(f, kf, comma, comma);
        SqueezesParts(f + comma, kf + comma, gap, "");
        SqueezesParts(f + comma + gap, kf + comma + "", Text(value), Text(Stripped(value)));
        SqueezesParts(f + comma + gap + Text(value), kf + comma + "" + Text(Stripped(value)), tail, "");
        assert StrippedItems(before).NoItems? == before.NoItems?;
    }
  }

  // ---- Same arguments, same tree --------------------------------------------------------

  lemma {:induction false} StrippedIsTidy(v: Value)
    requires WellFormed(v)
    ensures WellFormed(Stripped(v)) && JsonOneTree.Tidy(Stripped(v))
    decreases v, 1
  {
    match v {
      case Lit(_) =>
      case Str(_) =>
      case Obj(ms, _) => StrippedMembersTidy(ms);
      case Arr(items, _) => StrippedItemsTidy(items);
    }
  }

  lemma {:induction false} StrippedMembersTidy(ms: Members)
    requires WellFormedMembers(ms)
    ensures WellFormedMembers(StrippedMembers(ms)) && JsonOneTree.TidyMembers(StrippedMembers(ms))
    decreases ms, 0
  {
    if ms.AddMember? {
      StrippedMembersTidy(ms.front);
      StrippedIsTidy(ms.value);
    }
  }

  lemma {:induction false} StrippedItemsTidy(items: Items)
    requires WellFormedItems(items)
    ensures WellFormedItems(StrippedItems(items)) && JsonOneTree.TidyItems(StrippedItems(items))
    decreases items, 0
  {
    if items.AddItem? {
      StrippedItemsTidy(items.before);
      StrippedIsTidy(items.value);
    }
  }

  /** Two documents count as the same arguments exactly when their trees agree apart from
      white space. */
  lemma SameTrees(d: Document, e: Document)
    requires WellFormedDocument(d) && WellFormedDocument(e) && Depth(d.root) <= MAX_NESTING && Depth(e.root) <= MAX_NESTING
    ensures SameArguments(DocumentText(d), DocumentText(e)) <==> Stripped(d.root) == Stripped(e.root)
  {
    hide WellFormed, Squeeze, DocumentText, Stripped, Text;
    SqueezesDocument(d);
    SqueezesDocument(e);
    assert IsJson(DocumentText(d)) && IsJson(DocumentText(e));
    StrippedIsTidy(d.root);
    StrippedIsTidy(e.root);
    var a, b := Stripped(d.root), Stripped(e.root);
    if Text(a) == Text(b) { JsonOneTree.OneValue(a, "", b, ""); }
  }

  lemma SqueezesDocument(d: Document)
    requires WellFormedDocument(d)
    ensures Squeezes(DocumentText(d), Text(Stripped(d.root)))
  {
    hide Squeezes, Text;
    SqueezesBlank(d.head);
    SqueezesText(d.root);
    SqueezesBlank(d.foot);
    SqueezesParts(d.head, "", Text(d.root), Text(Stripped(d.root)));
    SqueezesParts(d.head + Text(d.root), "" + Text(Stripped(d.root)), d.foot, "");
    assert "" + Text(Stripped(d.root)) + "" == Text(Stripped(d.root));
  }
}
