/**
 * The JSON text `JSON.stringify` makes of a client user object and the
 * `JSON.parse` that reads it back, for the keys the model keeps, in a fixed
 * order: strings with the escapes of section 7 of RFC 8259, integers as in
 * section 6, `null` for a missing value, and `isAdmin` omitted when it is
 * undefined (as `JSON.stringify` omits undefined properties).
 */
module ProfileJson {
  import opened Wrappers
  import opened Json
  import opened UserSlice

  // ---- Strings (section 7 of RFC 8259)

  function HexDigit(n: nat): (c: char)
    requires n < 16
  {
    if n < 10 then ('0' as int + n) as char else ('a' as int + n - 10) as char
  }

  function HexValue(c: char): (r: Option<nat>)
    ensures r.Some? ==> r.value < 16
  {
    if '0' <= c <= '9' then Some(c as int - '0' as int)
    else if 'a' <= c <= 'f' then Some(c as int - 'a' as int + 10)
    else if 'A' <= c <= 'F' then Some(c as int - 'A' as int + 10)
    else None
  }

  /** Four hexadecimal digits as a number, or `None` if one is not a hex digit. */
  function Hex4(h: string): (r: Option<nat>)
    requires |h| == 4
    ensures r.Some? ==> r.value < 0x1_0000
  {
    var d0 :- HexValue(h[0]);
    var d1 :- HexValue(h[1]);
    var d2 :- HexValue(h[2]);
    var d3 :- HexValue(h[3]);
    Some(((d0 * 16 + d1) * 16 + d2) * 16 + d3)
  }

  /** How `JSON.stringify` writes one character inside a string. */
  function EscapeChar(c: char): string {
    if c == '"' then "\\\""
    else if c == '\\' then "\\\\"
    else if c == '\n' then "\\n"
    else if c == '\r' then "\\r"
    else if c == '\t' then "\\t"
    else if c as int == 8 then "\\b"
    else if c as int == 12 then "\\f"
    else if c as int < 0x20 then "\\u00" + [HexDigit(c as int / 16), HexDigit(c as int % 16)]
    else [c]
  }

  function Escape(s: string): string {
    if s == [] then [] else EscapeChar(s[0]) + Escape(s[1..])
  }

  /** The escape sequences of section 7 of RFC 8259, after the backslash: the character and the length consumed. */
  function Unescape(s: string): (r: Option<(char, nat)>)
    ensures r.Some? ==> 1 <= r.value.1 <= |s|
  {
    if s == [] then None
    else if s[0] == '"' then Some(('"', 1))
    else if s[0] == '\\' then Some(('\\', 1))
    else if s[0] == '/' then Some(('/', 1))
    else if s[0] == 'b' then Some((8 as char, 1))
    else if s[0] == 'f' then Some((12 as char, 1))
    else if s[0] == 'n' then Some(('\n', 1))
    else if s[0] == 'r' then Some(('\r', 1))
    else if s[0] == 't' then Some(('\t', 1))
    else if s[0] == 'u' && |s| >= 5 then
      var v :- Hex4(s[1..5]);
      // a lone surrogate is not a character here
      if 0xD800 <= v < 0xE000 then None else Some((v as char, 5))
    else None
  }

  /**
   * The characters of a string up to its closing quote: the decoded text and
   * what follows the quote. Raw control characters are refused.
   */
  function StringBody(s: string): (r: Option<(string, string)>)
    ensures r.Some? ==> |r.value.1| < |s|
    decreases |s|
  {
    if s == [] then None
    else if s[0] == '"' then Some(([], s[1..]))
    else if s[0] == '\\' then
      var (c, n) :- Unescape(s[1..]);
      var (cs, rest) :- StringBody(s[1 + n..]);
      Some(([c] + cs, rest))
    else if s[0] as int < 0x20 then None
    else
      var (cs, rest) :- StringBody(s[1..]);
      Some(([s[0]] + cs, rest))
  }

  /** A quoted string and what follows it. */
  function ParseString(s: string): Option<(string, string)> {
    if s != [] && s[0] == '"' then StringBody(s[1..]) else None
  }

  lemma HexRoundTrip(n: nat)
    requires n < 16
    ensures HexValue(HexDigit(n)) == Some(n)
  {
  }

  /** The characters `JSON.stringify` writes with a two-character escape. */
  predicate NamedEscape(c: char) {
    c == '"' || c == '\\' || c == '\n' || c == '\r' || c == '\t' || c as int == 8 || c as int == 12
  }

  lemma NamedEscapeRoundTrip(c: char, tail: string)
    requires NamedEscape(c)
    ensures StringBody(EscapeChar(c) + tail) ==
      match StringBody(tail)
      case None => None
      case Some((cs, rest)) => Some(([c] + cs, rest))
  {
    var s := EscapeChar(c) + tail;
    assert |EscapeChar(c)| == 2 && EscapeChar(c)[0] == '\\';
    assert Unescape(s[1..]) == Some((c, 1));
    assert s[1 + 1..] == tail;
  }

  lemma ControlEscapeRoundTrip(c: char, tail: string)
    requires !NamedEscape(c) && c as int < 0x20
    ensures StringBody(EscapeChar(c) + tail) ==
      match StringBody(tail)
      case None => None
      case Some((cs, rest)) => Some(([c] + cs, rest))
  {
    var s := EscapeChar(c) + tail;
    var hi, lo := c as int / 16, c as int % 16;
    HexRoundTrip(hi);
    HexRoundTrip(lo);
    assert EscapeChar(c) == "\\u00" + [HexDigit(hi), HexDigit(lo)];
    assert s[0] == '\\';
    var u := s[1..];
    assert u[0] == 'u' && |u| >= 5;
    assert u[1..5] == ['0', '0', HexDigit(hi), HexDigit(lo)];
    assert Hex4(u[1..5]) == Some(c as int);
    assert Unescape(u) == Some((c, 5));
    assert s[1 + 5..] == tail;
  }

  lemma PlainRoundTrip(c: char, tail: string)
    requires !NamedEscape(c) && c as int >= 0x20
    ensures StringBody(EscapeChar(c) + tail) ==
      match StringBody(tail)
      case None => None
      case Some((cs, rest)) => Some(([c] + cs, rest))
  {
    var s := EscapeChar(c) + tail;
    assert EscapeChar(c) == [c];
    assert s[1..] == tail;
  }

  /** One escaped character is read back as that character, whatever follows it. */
  lemma EscapeCharRoundTrip(c: char, tail: string)
    ensures StringBody(EscapeChar(c) + tail) ==
      match StringBody(tail)
      case None => None
      case Some((cs, rest)) => Some(([c] + cs, rest))
  {
    if NamedEscape(c) {
      NamedEscapeRoundTrip(c, tail);
    } else if c as int < 0x20 {
      ControlEscapeRoundTrip(c, tail);
    } else {
      PlainRoundTrip(c, tail);
    }
  }

  /** `JSON.parse` reads back the string `JSON.stringify` wrote, and stops after its closing quote. */
  lemma {:induction false} StringBodyRoundTrip(x: string, rest: string)
    ensures StringBody(Escape(x) + ("\"" + rest)) == Some((x, rest))
    decreases |x|
  {
    if x == [] {
      assert Escape(x) + ("\"" + rest) == "\"" + rest;
    } else {
      assert Escape(x) + ("\"" + rest) == EscapeChar(x[0]) + (Escape(x[1..]) + ("\"" + rest));
      StringBodyRoundTrip(x[1..], rest);
      EscapeCharRoundTrip(x[0], Escape(x[1..]) + ("\"" + rest));
      assert [x[0]] + x[1..] == x;
    }
  }

  /** A quoted string: opening quote, escaped text, closing quote. */
  function Quote(x: string): string {
    "\"" + Escape(x) + "\""
  }

  lemma ParseStringRoundTrip(x: string, rest: string)
    ensures ParseString(Quote(x) + rest) == Some((x, rest))
  {
    var s := Quote(x) + rest;
    assert s[1..] == Escape(x) + ("\"" + rest);
    StringBodyRoundTrip(x, rest);
  }

  // ---- Integers (section 6 of RFC 8259)

  predicate IsDigit(c: char) {
    '0' <= c <= '9'
  }

  function Digit(n: nat): (c: char)
    requires n < 10
    ensures IsDigit(c)
  {
    ('0' as int + n) as char
  }

  /** The decimal digits of a natural number, without leading zeros. */
  function NatText(n: nat): (r: string)
    ensures r != [] && forall i :: 0 <= i < |r| ==> IsDigit(r[i])
    ensures (r[0] == '0') == (n == 0)
    ensures n == 0 ==> r == "0"
  {
    if n < 10 then [Digit(n)] else NatText(n / 10) + [Digit(n % 10)]
  }

  /** How `JSON.stringify` writes an integer. */
  function IntText(i: int): string {
    if i < 0 then "-" + NatText(-i) else NatText(i)
  }

  /** The number of leading digits. */
  function DigitRun(s: string): (k: nat)
    ensures k <= |s|
    ensures forall i :: 0 <= i < k ==> IsDigit(s[i])
    ensures k < |s| ==> !IsDigit(s[k])
  {
    if s != [] && IsDigit(s[0]) then 1 + DigitRun(s[1..]) else 0
  }

  /** The value of a string of decimal digits. */
  function DigitsValue(ds: string): nat
    requires forall i :: 0 <= i < |ds| ==> IsDigit(ds[i])
  {
    if ds == [] then 0
    else
      assert IsDigit(ds[|ds| - 1]);
      DigitsValue(ds[..|ds| - 1]) * 10 + (ds[|ds| - 1] as int - '0' as int)
  }

  /** A digit run without a leading zero, and what follows it. */
  function ParseNat(t: string): Option<(nat, string)> {
    var k := DigitRun(t);
    if k == 0 || (k > 1 && t[0] == '0') then None
    else Some((DigitsValue(t[..k]), t[k..]))
  }

  /** An optional minus sign and a digit run without a leading zero, and what follows it. */
  function ParseInt(s: string): Option<(int, string)> {
    if s != [] && s[0] == '-' then
      match ParseNat(s[1..])
      case None => None
      case Some((v, rest)) => Some((-(v as int), rest))
    else
      match ParseNat(s)
      case None => None
      case Some((v, rest)) => Some((v as int, rest))
  }

  lemma {:induction false} NatTextValue(n: nat)
    ensures DigitsValue(NatText(n)) == n
  {
    if n >= 10 {
      var r := NatText(n);
      assert r[..|r| - 1] == NatText(n / 10);
      NatTextValue(n / 10);
    }
  }

  lemma {:induction false} DigitRunOfDigits(d: string, rest: string)
    requires forall i :: 0 <= i < |d| ==> IsDigit(d[i])
    requires rest == [] || !IsDigit(rest[0])
    ensures DigitRun(d + rest) == |d|
    decreases |d|
  {
    if d != [] {
      assert (d + rest)[1..] == d[1..] + rest;
      DigitRunOfDigits(d[1..], rest);
    } else {
      assert d + rest == rest;
    }
  }

  /** A digit run without a leading zero is read as its value. */
  lemma ParseNatDigits(d: string, rest: string)
    requires d != [] && (forall i :: 0 <= i < |d| ==> IsDigit(d[i])) && (|d| > 1 ==> d[0] != '0')
    requires rest == [] || !IsDigit(rest[0])
    ensures ParseNat(d + rest) == Some((DigitsValue(d), rest))
  {
    var t := d + rest;
    DigitRunOfDigits(d, rest);
    assert t[..|d|] == d && t[|d|..] == rest;
  }

  /** A minus sign negates the value read after it; a text starting with a digit is read as it is. */
  lemma ParseIntSign(t: string, v: nat, rest: string)
    requires ParseNat(t) == Some((v, rest))
    ensures ParseInt("-" + t) == Some((-(v as int), rest))
    ensures IsDigit(t[0]) ==> ParseInt(t) == Some((v as int, rest))
  {
    assert ("-" + t)[1..] == t;
  }

  /** `JSON.parse` reads back the integer `JSON.stringify` wrote, when no digit follows it. */
  lemma ParseIntRoundTrip(i: int, rest: string)
    requires rest == [] || !IsDigit(rest[0])
    ensures ParseInt(IntText(i) + rest) == Some((i, rest))
  {
    var n: nat := if i < 0 then -i else i;
    var d := NatText(n);
    NatTextValue(n);
    ParseNatDigits(d, rest);
    ParseIntSign(d + rest, n, rest);
    if i < 0 {
      assert IntText(i) + rest == "-" + (d + rest);
    } else {
      assert IntText(i) + rest == d + rest;
    }
  }

  // ---- The user object

  /** The rest of `s` after the literal text `lit`, if `s` starts with it. */
  function Expect(lit: string, s: string): (r: Option<string>)
    ensures r.Some? ==> s == lit + r.value
  {
    if lit <= s then Some(s[|lit|..]) else None
  }

  function OptionalString(x: Option<string>): string {
    match x
    case None => "null"
    case Some(v) => Quote(v)
  }

  function OptionalInt(x: Option<int>): string {
    match x
    case None => "null"
    case Some(v) => IntText(v)
  }

  function ParseOptionalString(s: string): Option<(Option<string>, string)> {
    match Expect("null", s)
    case Some(rest) => Some((None, rest))
    case None =>
      var (v, rest) :- ParseString(s);
      Some((Some(v), rest))
  }

  function ParseOptionalInt(s: string): Option<(Option<int>, string)> {
    match Expect("null", s)
    case Some(rest) => Some((None, rest))
    case None =>
      var (v, rest) :- ParseInt(s);
      Some((Some(v), rest))
  }

  /** The closing brace, preceded by the `isAdmin` member unless the flag is undefined. */
  function AdminTail(f: Flag): string {
    if f == Undefined then "}" else ",\"isAdmin\":" + StoredText(f) + "}"
  }

  function ParseAdminTail(s: string): Option<(Flag, string)> {
    match Expect("}", s)
    case Some(rest) => Some((Undefined, rest))
    case None =>
      var r1 :- Expect(",\"isAdmin\":", s);
      if "true}" <= r1 then Some((True, r1[5..]))
      else if "false}" <= r1 then Some((False, r1[6..]))
      else if "null}" <= r1 then Some((Null, r1[5..]))
      else None
  }

  /** `JSON.stringify(user)`. */
  function EncodeProfile(p: Profile): string {
    "{\"firstName\":" + (Quote(p.firstName) +
    (",\"lastName\":" + (Quote(p.lastName) +
    (",\"accessLevel\":" + (OptionalInt(p.accessLevel) +
    (",\"profileImage\":" + (OptionalString(p.profileImage) +
    (",\"fullName\":" + (OptionalString(p.fullName) +
    AdminTail(p.isAdmin))))))))))
  }

  /**
   * `JSON.parse` of a stored user object; `None` is the SyntaxError it
   * throws (and any text this reader does not cover).
   */
  function DecodeProfile(text: string): Option<Profile> {
    var s1 :- Expect("{\"firstName\":", text);
    var (first, s2) :- ParseString(s1);
    var s3 :- Expect(",\"lastName\":", s2);
    var (last, s4) :- ParseString(s3);
    var s5 :- Expect(",\"accessLevel\":", s4);
    var (level, s6) :- ParseOptionalInt(s5);
    var s7 :- Expect(",\"profileImage\":", s6);
    var (image, s8) :- ParseOptionalString(s7);
    var s9 :- Expect(",\"fullName\":", s8);
    var (full, s10) :- ParseOptionalString(s9);
    var (admin, s11) :- ParseAdminTail(s10);
    if AllWs(s11) then Some(Profile(first, last, level, image, full, admin)) else None
  }

  lemma ExpectLiteral(lit: string, rest: string)
    ensures Expect(lit, lit + rest) == Some(rest)
  {
    assert lit <= lit + rest;
  }

  lemma OptionalStringRoundTrip(x: Option<string>, rest: string)
    ensures ParseOptionalString(OptionalString(x) + rest) == Some((x, rest))
  {
    match x
    case None => ExpectLiteral("null", rest);
    case Some(v) =>
      ParseStringRoundTrip(v, rest);
      assert (OptionalString(x) + rest)[0] == '"';
  }

  lemma OptionalIntRoundTrip(x: Option<int>, rest: string)
    requires rest == [] || !IsDigit(rest[0])
    ensures ParseOptionalInt(OptionalInt(x) + rest) == Some((x, rest))
  {
    match x
    case None => ExpectLiteral("null", rest);
    case Some(v) =>
      ParseIntRoundTrip(v, rest);
      var s := OptionalInt(x) + rest;
      assert s[0] == '-' || IsDigit(s[0]);
  }

  lemma AdminTailRoundTrip(f: Flag, rest: string)
    ensures ParseAdminTail(AdminTail(f) + rest) == Some((f, rest))
  {
    if f == Undefined {
      ExpectLiteral("}", rest);
    } else {
      var lit := StoredText(f) + "}";
      var s := AdminTail(f) + rest;
      assert s == ",\"isAdmin\":" + (lit + rest);
      ExpectLiteral(",\"isAdmin\":", lit + rest);
      assert s[0] == ',';
      assert Expect("}", s) == None;
      var r1 := lit + rest;
      assert r1[..|lit|] == lit && r1[|lit|..] == rest;
      match f
      case True =>
        assert "true}" <= r1;
      case False =>
        assert !("true}" <= r1) by { assert r1[0] == 'f'; }
        assert "false}" <= r1;
      case Null =>
        assert !("true}" <= r1) by { assert r1[1] == 'u'; }
        assert !("false}" <= r1) by { assert r1[0] == 'n'; }
        assert "null}" <= r1;
    }
  }

  /** What the client stores under "user" or "userData" reads back as the same user. */
  lemma DecodeEncode(p: Profile)
    ensures DecodeProfile(EncodeProfile(p)) == Some(p)
  {
    var t5 := AdminTail(p.isAdmin);
    var t4 := ",\"fullName\":" + (OptionalString(p.fullName) + t5);
    var t3 := ",\"profileImage\":" + (OptionalString(p.profileImage) + t4);
    var t2 := ",\"accessLevel\":" + (OptionalInt(p.accessLevel) + t3);
    var t1 := ",\"lastName\":" + (Quote(p.lastName) + t2);
    ExpectLiteral("{\"firstName\":", Quote(p.firstName) + t1);
    ParseStringRoundTrip(p.firstName, t1);
    ExpectLiteral(",\"lastName\":", Quote(p.lastName) + t2);
    ParseStringRoundTrip(p.lastName, t2);
    ExpectLiteral(",\"accessLevel\":", OptionalInt(p.accessLevel) + t3);
    OptionalIntRoundTrip(p.accessLevel, t3);
    ExpectLiteral(",\"profileImage\":", OptionalString(p.profileImage) + t4);
    OptionalStringRoundTrip(p.profileImage, t4);
    ExpectLiteral(",\"fullName\":", OptionalString(p.fullName) + t5);
    assert t5 == AdminTail(p.isAdmin) + [];
    OptionalStringRoundTrip(p.fullName, t5);
    AdminTailRoundTrip(p.isAdmin, []);
  }
}
