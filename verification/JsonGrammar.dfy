/**
  JSON text as an inductive grammar (RFC 8259, sections 2 to 7): concrete syntax trees,
  the text they stand for, and the limits that the completion scanner puts on a document.
  White space and the spelling of every literal are part of the tree, so `Text` is the
  grammar read from left to right.
 */
module JsonGrammar {
  import opened GoText

  // ---- Terminals ---------------------------------------------------------------

  predicate IsBlank(c: char) {
    c == ' ' || c == '\t' || c == '\r' || c == '\n'
  }

  predicate Blank(s: bytes) {
    forall i :: 0 <= i < |s| ==> IsBlank(s[i])
  }

  /** A byte that ends a number or literal. */
  predicate IsDelimiter(c: char) {
    c == ',' || c == '}' || c == ']' || IsBlank(c)
  }

  predicate IsSimpleEscape(c: char) {
    c == '"' || c == '\\' || c == '/' || c == 'b' || c == 'f' || c == 'n' || c == 'r' || c == 't'
  }

  /** Section 7: the part of a string between its quotes. */
  predicate StringBody(s: bytes)
    decreases |s|
  {
    if |s| == 0 then true
    else if s[0] == '\\' then
      |s| >= 2 &&
      if s[1] == 'u'
      then |s| >= 6 && (forall i :: 2 <= i < 6 ==> IsHex(s[i])) && StringBody(s[6..])
      else IsSimpleEscape(s[1]) && StringBody(s[2..])
    else s[0] != '"' && s[0] >= ' ' && StringBody(s[1..])
  }

  /** Section 6, production by production. */
  predicate Number(s: bytes) {
    Int(if |s| > 0 && s[0] == '-' then s[1..] else s)
  }

  predicate Int(s: bytes) {
    |s| > 0 && (if s[0] == '0' then AfterInt(s[1..]) else IsDigit(s[0]) && IntDigits(s[1..]))
  }

  predicate IntDigits(s: bytes) {
    AfterInt(s) || (|s| > 0 && IsDigit(s[0]) && IntDigits(s[1..]))
  }

  predicate AfterInt(s: bytes) {
    AfterFraction(s) || (|s| > 1 && s[0] == '.' && IsDigit(s[1]) && FractionDigits(s[2..]))
  }

  predicate FractionDigits(s: bytes) {
    AfterFraction(s) || (|s| > 0 && IsDigit(s[0]) && FractionDigits(s[1..]))
  }

  predicate AfterFraction(s: bytes) {
    |s| == 0 ||
    (|s| > 1 && (s[0] == 'e' || s[0] == 'E') &&
     var digits := if s[1] == '+' || s[1] == '-' then s[2..] else s[1..];
     |digits| > 0 && forall i :: 0 <= i < |digits| ==> IsDigit(digits[i]))
  }

  /** Sections 3 and 6: everything that is not a string, an object or an array.  This is
      what json.Valid accepts of a token that starts like a number or a literal. */
  predicate ScalarToken(s: bytes) {
    s == "true" || s == "false" || s == "null" || Number(s)
  }

  predicate StartsScalar(c: char) {
    c == '-' || IsDigit(c) || c == 't' || c == 'f' || c == 'n'
  }

  // ---- Concrete syntax trees -----------------------------------------------------

  /** `pad` is the white space of an empty object or array. */
  datatype Value =
    | Lit(token: bytes)
    | Str(body: bytes)
    | Obj(members: Members, pad: bytes)
    | Arr(items: Items, pad: bytes)

  /** Members from left to right; `gap` follows the brace or comma before the key. */
  datatype Members =
    | NoMembers
    | AddMember(front: Members, gap: bytes, key: bytes, preColon: bytes, postColon: bytes, value: Value, tail: bytes)

  datatype Items =
    | NoItems
    | AddItem(before: Items, gap: bytes, value: Value, tail: bytes)

  datatype Document = Document(head: bytes, root: Value, foot: bytes)

  function Quoted(body: bytes): bytes {
    "\"" + body + "\""
  }

  function Text(v: Value): bytes {
    match v
    case Lit(token) => token
    case Str(body) => Quoted(body)
    case Obj(members, pad) => "{" + MembersText(members) + (if members.NoMembers? then pad else "") + "}"
    case Arr(items, pad) => "[" + ItemsText(items) + (if items.NoItems? then pad else "") + "]"
  }

  function MembersText(ms: Members): bytes {
    match ms
    case NoMembers => ""
    case AddMember(front, gap, key, pre, post, value, tail) =>
      MembersText(front) + (if front.NoMembers? then "" else ",") + gap + Quoted(key) + pre + ":" + post + Text(value) + tail
  }

  function ItemsText(items: Items): bytes {
    match items
    case NoItems => ""
    case AddItem(before, gap, value, tail) =>
      ItemsText(before) + (if before.NoItems? then "" else ",") + gap + Text(value) + tail
  }

  function DocumentText(d: Document): bytes {
    d.head + Text(d.root) + d.foot
  }

  predicate WellFormed(v: Value) {
    match v
    case Lit(token) => ScalarToken(token)
    case Str(body) => StringBody(body)
    case Obj(members, pad) => WellFormedMembers(members) && Blank(pad)
    case Arr(items, pad) => WellFormedItems(items) && Blank(pad)
  }

  predicate WellFormedMembers(ms: Members) {
    match ms
    case NoMembers => true
    case AddMember(front, gap, key, pre, post, value, tail) =>
      WellFormedMembers(front) && Blank(gap) && StringBody(key) && Blank(pre) && Blank(post)
      && WellFormed(value) && Blank(tail)
  }

  predicate WellFormedItems(items: Items) {
    match items
    case NoItems => true
    case AddItem(before, gap, value, tail) =>
      WellFormedItems(before) && Blank(gap) && WellFormed(value) && Blank(tail)
  }

  // ---- Limits of the scanner -----------------------------------------------------

  const MAX_DEPTH: nat := 128
  const MAX_TOKEN: nat := 512

  function Max(a: nat, b: nat): nat {
    if a < b then b else a
  }

  function Depth(v: Value): nat {
    match v
    case Lit(_) => 0
    case Str(_) => 0
    case Obj(members, _) => 1 + MembersDepth(members)
    case Arr(items, _) => 1 + ItemsDepth(items)
  }

  function MembersDepth(ms: Members): nat {
    match ms
    case NoMembers => 0
    case AddMember(front, _, _, _, _, value, _) => Max(MembersDepth(front), Depth(value))
  }

  function ItemsDepth(items: Items): nat {
    match items
    case NoItems => 0
    case AddItem(before, _, value, _) => Max(ItemsDepth(before), Depth(value))
  }

  /** The name a key stands for; keys of more than 512 bytes are not decoded. */
  function KeyName(key: bytes): bytes {
    if |key| > MAX_TOKEN then "" else Unquote(key)
  }

  /** The member names that completion checks depend on (completionFieldBit). */
  const TRACKED: seq<bytes> := [
    "choices", "message", "finish_reason", "output", "status", "error", "content", "stop_reason", "data",
    "results", "input_tokens", "embedding", "url", "b64_json", "index", "type", "id", "name", "arguments",
    "function", "function_call", "tool_calls", "call_id", "input", "delta", "response", "stop_sequence",
    "content_block", "partial_json", "output_index", "item", "disable_parallel_tool_use", "parallel_tool_calls"]

  predicate Listed(name: bytes, names: seq<bytes>) {
    |names| > 0 && (name == names[0] || Listed(name, names[1..]))
  }

  predicate Tracked(name: bytes) {
    Listed(name, TRACKED)
  }

  /** The tracked names used by the keys of one object. */
  function TrackedNames(ms: Members): set<bytes> {
    match ms
    case NoMembers => {}
    case AddMember(front, _, key, _, _, _, _) =>
      TrackedNames(front) + (if Tracked(KeyName(key)) then {KeyName(key)} else {})
  }

  /** Numbers and literals fit the token buffer, and no object repeats a tracked name. */
  predicate WithinLimits(v: Value) {
    match v
    case Lit(token) => |token| <= MAX_TOKEN
    case Str(_) => true
    case Obj(members, _) => MembersWithinLimits(members)
    case Arr(items, _) => ItemsWithinLimits(items)
  }

  predicate MembersWithinLimits(ms: Members) {
    match ms
    case NoMembers => true
    case AddMember(front, _, key, _, _, value, _) =>
      MembersWithinLimits(front) && KeyName(key) !in TrackedNames(front) && WithinLimits(value)
  }

  predicate ItemsWithinLimits(items: Items) {
    match items
    case NoItems => true
    case AddItem(before, _, value, _) => ItemsWithinLimits(before) && WithinLimits(value)
  }

  predicate WellFormedDocument(d: Document) {
    Blank(d.head) && WellFormed(d.root) && Blank(d.foot)
  }

  /** The documents that the scanner is meant to accept. */
  predicate Acceptable(d: Document) {
    WellFormedDocument(d) && d.root.Obj? && Depth(d.root) <= MAX_DEPTH && WithinLimits(d.root)
  }

  // ---- Facts about terminals -----------------------------------------------------

  predicate ScalarChar(c: char) {
    IsDigit(c) || c == '-' || c == '+' || c == '.' || 'a' <= c <= 'z' || c == 'E'
  }

  predicate ScalarChars(s: bytes) {
    forall i :: 0 <= i < |s| ==> ScalarChar(s[i])
  }

  lemma ScalarCharsPrepend(c: char, s: bytes)
    requires ScalarChar(c) && |s| > 0 && s[0] == c && ScalarChars(s[1..])
    ensures ScalarChars(s)
  {
    forall i | 0 <= i < |s| ensures ScalarChar(s[i]) {
      if i > 0 { assert s[i] == s[1..][i - 1]; }
    }
  }

  lemma AfterFractionChars(s: bytes)
    requires AfterFraction(s)
    ensures ScalarChars(s)
  {
    if |s| > 1 {
      var k := if s[1] == '+' || s[1] == '-' then 2 else 1;
      forall i | k <= i < |s| ensures ScalarChar(s[i]) { assert s[i] == s[k..][i - k]; }
    }
  }

  lemma {:induction false} FractionDigitsChars(s: bytes)
    requires FractionDigits(s)
    ensures ScalarChars(s)
  {
    if AfterFraction(s) { AfterFractionChars(s); }
    else { FractionDigitsChars(s[1..]); ScalarCharsPrepend(s[0], s); }
  }

  lemma AfterIntChars(s: bytes)
    requires AfterInt(s)
    ensures ScalarChars(s)
  {
    if AfterFraction(s) { AfterFractionChars(s); }
    else {
      FractionDigitsChars(s[2..]);
      assert s[2..] == s[1..][1..];
      ScalarCharsPrepend(s[1], s[1..]);
      ScalarCharsPrepend(s[0], s);
    }
  }

  lemma {:induction false} IntDigitsChars(s: bytes)
    requires IntDigits(s)
    ensures ScalarChars(s)
  {
    if AfterInt(s) { AfterIntChars(s); }
    else { IntDigitsChars(s[1..]); ScalarCharsPrepend(s[0], s); }
  }

  /** A scalar token contains no delimiter or quote and starts with a byte that announces it. */
  lemma ScalarTokenShape(s: bytes)
    requires ScalarToken(s)
    ensures |s| > 0 && StartsScalar(s[0]) && forall i :: 0 <= i < |s| ==> !IsDelimiter(s[i]) && s[i] != '"' && s[i] != '{' && s[i] != '['
  {
    if Number(s) {
      var t := if s[0] == '-' then s[1..] else s;
      if t[0] == '0' { AfterIntChars(t[1..]); } else { IntDigitsChars(t[1..]); }
      ScalarCharsPrepend(t[0], t);
      if t != s { ScalarCharsPrepend(s[0], s); }
      assert ScalarChars(s);
    }
  }

  /** Nor does it contain a bracket. */
  lemma ScalarTokenPlain(s: bytes)
    requires ScalarToken(s)
    ensures forall i :: 0 <= i < |s| ==> s[i] != '"' && s[i] != '{' && s[i] != '[' && s[i] != '}' && s[i] != ']'
  {
    ScalarTokenShape(s);
  }
}
