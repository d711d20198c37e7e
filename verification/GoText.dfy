/**
  The few library functions of the Go runtime that the completion checker relies on,
  written out for byte strings.  A byte string is a `string` whose characters are below
  256; every result of this project holds for arbitrary characters and so in particular
  for bytes.
 */
module GoText {

  type bytes = string

  datatype Option<+T> = None | Some(value: T)

  predicate IsDigit(c: char) {
    '0' <= c <= '9'
  }

  predicate IsHex(c: char) {
    IsDigit(c) || 'a' <= c <= 'f' || 'A' <= c <= 'F'
  }

  function HexValue(c: char): (v: nat)
    requires IsHex(c)
    ensures v < 16
  {
    if IsDigit(c) then c as int - '0' as int
    else if 'a' <= c <= 'f' then c as int - 'a' as int + 10
    else c as int - 'A' as int + 10
  }

  // ---- UTF-8 ----------------------------------------------------------------

  const RUNE_ERROR: nat := 0xFFFD

  function Byte(v: int): char {
    if 0 <= v < 256 then v as char else '\0'
  }

  /** utf8.EncodeRune: surrogates and values beyond Unicode become U+FFFD. */
  function EncodeRune(r: nat): bytes {
    if r < 0x80 then [Byte(r)]
    else if r < 0x800 then [Byte(0xC0 + r / 64), Byte(0x80 + r % 64)]
    else if 0xD800 <= r < 0xE000 || r > 0x10FFFF then "\U{EF}\U{BF}\U{BD}"
    else if r < 0x10000 then [Byte(0xE0 + r / 4096), Byte(0x80 + r / 64 % 64), Byte(0x80 + r % 64)]
    else [Byte(0xF0 + r / 262144), Byte(0x80 + r / 4096 % 64), Byte(0x80 + r / 64 % 64), Byte(0x80 + r % 64)]
  }

  predicate IsContinuation(c: char) {
    0x80 <= c as int < 0xC0
  }

  /** How many bytes utf8.DecodeRune takes from the front of `s`: the length of a
      well-formed sequence, and otherwise 1 for the byte that is replaced. */
  function RuneLength(s: bytes): (n: nat)
    requires |s| > 0
    ensures 1 <= n <= 4 && n <= |s|
  {
    var b := s[0] as int;
    if 0xC2 <= b < 0xE0 && |s| >= 2 && IsContinuation(s[1]) then 2
    else if 0xE0 <= b < 0xF0 && |s| >= 3 && IsContinuation(s[1]) && IsContinuation(s[2])
         && (b == 0xE0 ==> s[1] as int >= 0xA0) && (b == 0xED ==> (s[1] as int) < 0xA0) then 3
    else if 0xF0 <= b < 0xF5 && |s| >= 4 && IsContinuation(s[1]) && IsContinuation(s[2]) && IsContinuation(s[3])
         && (b == 0xF0 ==> s[1] as int >= 0x90) && (b == 0xF4 ==> (s[1] as int) < 0x90) then 4
    else 1
  }

  // ---- json.Unmarshal of a string literal -------------------------------------

  function FourHex(s: bytes, at: nat): Option<nat> {
    if at + 4 <= |s| && IsHex(s[at]) && IsHex(s[at + 1]) && IsHex(s[at + 2]) && IsHex(s[at + 3])
    then Some(((HexValue(s[at]) * 16 + HexValue(s[at + 1])) * 16 + HexValue(s[at + 2])) * 16 + HexValue(s[at + 3]))
    else None
  }

  function SimpleEscape(c: char): char {
    match c
    case 'b' => '\U{08}'
    case 'f' => '\U{0C}'
    case 'n' => '\n'
    case 'r' => '\r'
    case 't' => '\t'
    case _ => c
  }

  /** The text denoted by the body of a JSON string literal (the part between the
      quotes).  Surrogate pairs are joined, lone surrogates and malformed UTF-8 become
      U+FFFD, as encoding/json does. */
  function Unquote(body: bytes): bytes
    decreases |body|
  {
    if |body| == 0 then ""
    else if body[0] == '\\' && |body| >= 2 then
      if body[1] == 'u' then UnquoteUnicode(body)
      else [SimpleEscape(body[1])] + Unquote(body[2..])
    else if body[0] as int < 0x80 then [body[0]] + Unquote(body[1..])
    else
      var n := RuneLength(body);
      (if n == 1 then EncodeRune(RUNE_ERROR) else body[..n]) + Unquote(body[n..])
  }

  function UnquoteUnicode(body: bytes): bytes
    requires |body| >= 2
    decreases |body|, 0
  {
    match FourHex(body, 2)
    case None => Unquote(body[2..])
    case Some(high) =>
      if 0xD800 <= high < 0xDC00 && |body| >= 12 && body[6] == '\\' && body[7] == 'u'
         && FourHex(body, 8).Some? && 0xDC00 <= FourHex(body, 8).value < 0xE000
      then EncodeRune(0x10000 + (high - 0xD800) * 1024 + (FourHex(body, 8).value - 0xDC00)) + Unquote(body[12..])
      else if |body| >= 6 then EncodeRune(high) + Unquote(body[6..])
      else ""
  }

  // ---- bytes.TrimSpace ---------------------------------------------------------

  /** The encodings of the white-space runes that bytes.TrimSpace removes. */
  const SPACES: seq<bytes> := [
    " ", "\t", "\n", "\U{0B}", "\U{0C}", "\r", "\U{C2}\U{85}", "\U{C2}\U{A0}", "\U{E1}\U{9A}\U{80}",
    "\U{E2}\U{80}\U{80}", "\U{E2}\U{80}\U{81}", "\U{E2}\U{80}\U{82}", "\U{E2}\U{80}\U{83}", "\U{E2}\U{80}\U{84}",
    "\U{E2}\U{80}\U{85}", "\U{E2}\U{80}\U{86}", "\U{E2}\U{80}\U{87}", "\U{E2}\U{80}\U{88}", "\U{E2}\U{80}\U{89}",
    "\U{E2}\U{80}\U{8A}", "\U{E2}\U{80}\U{A8}", "\U{E2}\U{80}\U{A9}", "\U{E2}\U{80}\U{AF}", "\U{E2}\U{81}\U{9F}",
    "\U{E3}\U{80}\U{80}"]

  /** The length of the white-space rune at the front of `s`, or 0. */
  function LeadingSpace(s: bytes, choices: seq<bytes>): (n: nat)
    ensures n <= |s|
  {
    if |choices| == 0 then 0
    else if choices[0] <= s then |choices[0]|
    else LeadingSpace(s, choices[1..])
  }

  function TrailingSpace(s: bytes, choices: seq<bytes>): (n: nat)
    ensures n <= |s|
  {
    if |choices| == 0 then 0
    else if |choices[0]| <= |s| && s[|s| - |choices[0]|..] == choices[0] then |choices[0]|
    else TrailingSpace(s, choices[1..])
  }

  function TrimLeft(s: bytes): bytes {
    var n := LeadingSpace(s, SPACES);
    if n == 0 then s else TrimLeft(s[n..])
  }

  function TrimRight(s: bytes): bytes {
    var n := TrailingSpace(s, SPACES);
    if n == 0 then s else TrimRight(s[..|s| - n])
  }

  function TrimSpace(s: bytes): bytes {
    TrimRight(TrimLeft(s))
  }

  lemma {:induction false} NoLeadingSpace(s: bytes, choices: seq<bytes>)
    requires |s| > 0 && forall i :: 0 <= i < |choices| ==> |choices[i]| > 0 && choices[i][0] != s[0]
    ensures LeadingSpace(s, choices) == 0
  {
    if |choices| > 0 {
      assert forall i :: 0 <= i < |choices[1..]| ==> choices[1..][i] == choices[i + 1];
      NoLeadingSpace(s, choices[1..]);
    }
  }

  lemma {:induction false} NoTrailingSpace(s: bytes, choices: seq<bytes>)
    requires |s| > 0 && forall i :: 0 <= i < |choices| ==> |choices[i]| > 0 && choices[i][|choices[i]| - 1] != s[|s| - 1]
    ensures TrailingSpace(s, choices) == 0
  {
    if |choices| > 0 {
      assert forall i :: 0 <= i < |choices[1..]| ==> choices[1..][i] == choices[i + 1];
      NoTrailingSpace(s, choices[1..]);
    }
  }

  // ---- strconv.Atoi ------------------------------------------------------------

  const MAX_INT: int := 0x7FFF_FFFF_FFFF_FFFF

  function Digits(s: bytes): Option<int> {
    if |s| == 0 then Some(0)
    else if !IsDigit(s[|s| - 1]) then None
    else match Digits(s[..|s| - 1])
      case None => None
      case Some(v) => Some(10 * v + (s[|s| - 1] as int - '0' as int))
  }

  function InRange(n: int): Option<int> {
    if -MAX_INT - 1 <= n <= MAX_INT then Some(n) else None
  }

  /** strconv.Atoi for the 64-bit platforms the gateway is built for. */
  function Atoi(s: bytes): Option<int> {
    var digits := if |s| > 0 && (s[0] == '-' || s[0] == '+') then s[1..] else s;
    if |digits| == 0 then None
    else match Digits(digits)
      case None => None
      case Some(v) => if s[0] == '-' then InRange(-v) else InRange(v)
  }

  // ---- strings.ToLower and strconv.Itoa ------------------------------------------

  /** strings.ToLower, for the letters that configuration names are made of. */
  function ToLower(s: string): string {
    if |s| == 0 then "" else ToLower(s[..|s| - 1]) + [LowerChar(s[|s| - 1])]
  }

  function LowerChar(c: char): char {
    if 'A' <= c <= 'Z' then c - 'A' + 'a' else c
  }

  function Itoa(n: nat): (s: string)
    ensures |s| > 0 && forall i :: 0 <= i < |s| ==> IsDigit(s[i])
    ensures Digits(s) == Some(n)
  {
    if n < 10 then
      assert [n as char + '0'][..0] == [];
      [n as char + '0']
    else
      assert (Itoa(n / 10) + [(n % 10) as char + '0'])[..|Itoa(n / 10)|] == Itoa(n / 10);
      Itoa(n / 10) + [(n % 10) as char + '0']
  }

  // ---- Cutting at a separator ------------------------------------------------------

  predicate Without(s: string, sep: char) {
    forall i :: 0 <= i < |s| ==> s[i] != sep
  }

  /** What precedes the first separator, and what follows it. */
  lemma FirstCut(a: string, x: string, b: string, y: string, sep: char)
    requires a + [sep] + x == b + [sep] + y && Without(a, sep) && Without(b, sep)
    ensures a == b && x == y
  {
    var s := a + [sep] + x;
    assert forall k :: 0 <= k < |a| ==> s[k] == a[k];
    assert forall k :: 0 <= k < |b| ==> s[k] == b[k];
    assert s[|a|] == sep && s[|b|] == sep;
    assert |a| == |b|;
    assert s[..|a|] == a && s[..|b|] == b && s[|a| + 1..] == x && s[|b| + 1..] == y;
  }

  /** The same for the last separator. */
  lemma LastCut(a: string, x: string, b: string, y: string, sep: char)
    requires a + [sep] + x == b + [sep] + y && Without(x, sep) && Without(y, sep)
    ensures a == b && x == y
  {
    var s := a + [sep] + x;
    assert forall k :: |a| < k < |s| ==> s[k] == x[k - |a| - 1];
    assert forall k :: |b| < k < |s| ==> s[k] == y[k - |b| - 1];
    assert s[|a|] == sep && s[|b|] == sep;
    assert |a| == |b|;
    assert s[..|a|] == a && s[..|b|] == b && s[|a| + 1..] == x && s[|b| + 1..] == y;
  }
}
