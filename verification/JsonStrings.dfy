/** Strings of the JSON codec: what the printer escapes, how the parser finds the end
    of a literal and decodes it, and the UTF-16 escapes (sections 7 of RFC 8259 and 3
    of RFC 3629). The loops of the code are in `JsonStringCode`. */
module JsonStrings {
  import opened Bytes

  /** A C string: its octets up to the terminating NUL. */
  type CString = s: seq<byte> | 0 !in s

  const QUOTE: byte := 34
  const BACKSLASH: byte := 92
  const SLASH: byte := 47
  const U: byte := 117

  /** What `valuestring` is for a decoded buffer: C stops at the first NUL. */
  function CStr(s: seq<byte>): (c: CString)
    ensures 0 !in s ==> c == s
  {
    if s == [] || s[0] == 0 then [] else [s[0]] + CStr(s[1..])
  }

  // ---------------------------------------------------------------- printing

  /** The letter of a two-character escape, or 0. */
  function Letter(c: byte): byte {
    if c == QUOTE || c == BACKSLASH then c
    else if c == 8 then 98 else if c == 12 then 102 else if c == 10 then 110
    else if c == 13 then 114 else if c == 9 then 116 else 0
  }

  function HexDigit(n: nat): byte
    requires n < 16
  {
    if n < 10 then 48 + n else 87 + n
  }

  /** One octet as the printer writes it. */
  function Escape(c: byte): (e: seq<byte>)
    ensures 1 <= |e| <= 6 && (c != 0 ==> 0 !in e)
  {
    if Letter(c) != 0 then [BACKSLASH, Letter(c)]
    else if c < 32 then [BACKSLASH, U, 48, 48, HexDigit(c as nat / 16), HexDigit(c as nat % 16)]
    else [c]
  }

  function EscapeAll(s: seq<byte>): (e: seq<byte>)
    ensures |e| >= |s|
  {
    if s == [] then [] else Escape(s[0]) + EscapeAll(s[1..])
  }

  function Quoted(s: seq<byte>): seq<byte> {
    [QUOTE] + EscapeAll(s) + [QUOTE]
  }

  // ----------------------------------------------------------------- parsing

  /** The index of the closing quote at or after `i`; a backslash hides one octet. */
  function EndOf(s: seq<byte>, i: nat): (r: Option<nat>)
    ensures r.Some? ==> i <= r.value < |s| && s[r.value] == QUOTE
    decreases |s| - i
  {
    if i >= |s| then None
    else if s[i] == QUOTE then Some(i)
    else if s[i] == BACKSLASH then if i + 1 >= |s| then None else EndOf(s, i + 2)
    else EndOf(s, i + 1)
  }

  function HexValue(c: byte): Option<nat> {
    if 48 <= c <= 57 then Some((c - 48) as nat)
    else if 65 <= c <= 70 then Some((c - 55) as nat)
    else if 97 <= c <= 102 then Some((c - 87) as nat)
    else None
  }

  /** `parse_hex4`: a character that is no hex digit makes the whole value 0. */
  function Hex4(s: seq<byte>): (h: nat)
    requires |s| >= 4
    ensures h < 0x1_0000
  {
    match (HexValue(s[0]), HexValue(s[1]), HexValue(s[2]), HexValue(s[3]))
    case (Some(a), Some(b), Some(c), Some(d)) => HexWord(a, b, c, d)
    case _ => 0
  }

  function HexWord(a: nat, b: nat, c: nat, d: nat): nat {
    a * 0x1000 + b * 0x100 + c * 0x10 + d
  }

  /** The UTF-8 encoding of a code point. */
  function Utf8(cp: nat): (u: seq<byte>)
    requires cp <= 0x10FFFF
    ensures 1 <= |u| <= 4 && (cp < 0x1_0000 ==> |u| <= 3)
  {
    if cp < 0x80 then [cp]
    else if cp < 0x800 then [0xC0 + cp / 0x40, 0x80 + cp % 0x40]
    else if cp < 0x1_0000 then [0xE0 + cp / 0x1000, 0x80 + cp / 0x40 % 0x40, 0x80 + cp % 0x40]
    else [0xF0 + cp / 0x4_0000, 0x80 + cp / 0x1000 % 0x40, 0x80 + cp / 0x40 % 0x40, 0x80 + cp % 0x40]
  }

  predicate High(c: nat) { 0xD800 <= c <= 0xDBFF }
  predicate Low(c: nat) { 0xDC00 <= c <= 0xDFFF }

  /** The code point of an escape at the head of `s` and how long the escape is, as
      `utf16_literal_to_utf8` sees it. */
  function Utf16(s: seq<byte>): (r: Option<(nat, nat)>)
    ensures r.Some? ==> r.value.0 <= 0x10FFFF && (r.value.1 == 6 || r.value.1 == 12) && r.value.1 <= |s|
    ensures r.Some? && r.value.1 == 6 ==> r.value.0 < 0x1_0000
  {
    if |s| < 6 then None
    else
      var first := Hex4(s[2..6]);
      if Low(first) then None
      else if !High(first) then Some((first, 6))
      else if |s| < 12 || s[6] != BACKSLASH || s[7] != U then None
      else
        var second := Hex4(s[8..12]);
        if !Low(second) then None
        else Some((0x1_0000 + (first - 0xD800) * 0x400 + (second - 0xDC00), 12))
  }

  /** The octet a two-character escape stands for. */
  function Unescape(c: byte): Option<byte> {
    if c == 98 then Some(8) else if c == 102 then Some(12) else if c == 110 then Some(10)
    else if c == 114 then Some(13) else if c == 116 then Some(9)
    else if c == QUOTE || c == BACKSLASH || c == SLASH then Some(c) else None
  }

  /** The literal between the quotes, decoded. (A backslash right before the closing
      quote takes that quote; it can only be the sixth octet of a malformed `\\u`.) */
  function Decode(s: seq<byte>): (r: Option<seq<byte>>)
    decreases |s|
  {
    if s == [] then Some([])
    else if s[0] != BACKSLASH then Prepend([s[0]], Decode(s[1..]))
    else if |s| < 2 then Some([QUOTE])
    else if s[1] == U then
      match Utf16(s)
      case None => None
      case Some((cp, n)) => Prepend(Utf8(cp), Decode(s[n..]))
    else
      match Unescape(s[1])
      case None => None
      case Some(c) => Prepend([c], Decode(s[2..]))
  }

  function Prepend(x: seq<byte>, r: Option<seq<byte>>): Option<seq<byte>> {
    if r.None? then None else Some(x + r.value)
  }

  /** `parse_string` on the input from its offset on. */
  function ParseString(s: seq<byte>): (r: Option<(CString, seq<byte>)>)
    ensures r.Some? ==> |r.value.1| < |s|
  {
    if s == [] || s[0] != QUOTE then None
    else
      match EndOf(s, 1)
      case None => None
      case Some(end) =>
        match Decode(s[1..end])
        case None => None
        case Some(out) => Some((CStr(out), s[end + 1..]))
  }

  // -------------------------------------------------------------- round trip

  lemma HexOf(c: byte)
    requires c < 32
    ensures Hex4([48, 48, HexDigit(c as nat / 16), HexDigit(c as nat % 16)]) == c as nat
  {
  }

  /** Decoding what the printer wrote for one octet. */
  lemma DecodeEscape(c: byte, x: seq<byte>)
    requires c != 0
    ensures Decode(Escape(c) + x) == Prepend([c], Decode(x))
  {
    var s := Escape(c) + x;
    if Letter(c) != 0 {
      assert s[2..] == x;
    } else if c < 32 {
      assert s[2..6] == [48, 48, HexDigit(c as nat / 16), HexDigit(c as nat % 16)];
      HexOf(c);
      assert s[6..] == x;
    } else {
      assert s[1..] == x;
    }
  }

  lemma {:induction false} DecodeEscapeAll(s: seq<byte>)
    requires 0 !in s
    ensures Decode(EscapeAll(s)) == Some(s)
    decreases |s|
  {
    if s != [] {
      hide Decode, Escape;
      DecodeEscapeAll(s[1..]);
      DecodeEscape(s[0], EscapeAll(s[1..]));
      assert [s[0]] + s[1..] == s;
    }
  }

  /** `e` stands at index `i`. */
  predicate Stands(s: seq<byte>, i: nat, e: seq<byte>) {
    i + |e| <= |s| && s[i..i + |e|] == e
  }

  lemma StandsAt(s: seq<byte>, i: nat, e: seq<byte>, j: nat)
    requires Stands(s, i, e) && j < |e|
    ensures s[i + j] == e[j]
  {
    assert s[i..i + |e|][j] == e[j];
  }

  lemma StandsSplit(s: seq<byte>, i: nat, a: seq<byte>, b: seq<byte>)
    requires Stands(s, i, a + b)
    ensures Stands(s, i, a) && Stands(s, i + |a|, b)
  {
    var w := s[i..i + |a + b|];
    assert s[i..i + |a|] == w[..|a|] == a;
    assert s[i + |a|..i + |a| + |b|] == w[|a|..] == b;
  }

  lemma SkipPlain(s: seq<byte>, i: nat, e: seq<byte>, j: nat)
    requires Stands(s, i, e) && j < |e| && e[j] != QUOTE && e[j] != BACKSLASH
    ensures EndOf(s, i + j) == EndOf(s, i + j + 1)
  {
    StandsAt(s, i, e, j);
  }

  lemma SkipPair(s: seq<byte>, i: nat, e: seq<byte>)
    requires Stands(s, i, e) && |e| >= 2 && e[0] == BACKSLASH
    ensures EndOf(s, i) == EndOf(s, i + 2)
  {
    StandsAt(s, i, e, 0);
  }

  /** The scan for the closing quote passes over what the printer wrote. */
  lemma SkipEscape(s: seq<byte>, i: nat, c: byte)
    requires Stands(s, i, Escape(c))
    ensures EndOf(s, i) == EndOf(s, i + |Escape(c)|)
  {
    hide EndOf, Stands;
    var e := Escape(c);
    if Letter(c) != 0 {
      SkipPair(s, i, e);
    } else if c < 32 {
      SkipPair(s, i, e);
      SkipPlain(s, i, e, 2);
      SkipPlain(s, i, e, 3);
      SkipPlain(s, i, e, 4);
      SkipPlain(s, i, e, 5);
    } else {
      SkipPlain(s, i, e, 0);
    }
  }

  lemma QuoteNext(s: seq<byte>, i: nat, t: seq<byte>)
    requires t == [] && Stands(s, i, EscapeAll(t) + [QUOTE])
    ensures EndOf(s, i) == Some(i + |EscapeAll(t)|)
  {
    StandsAt(s, i, EscapeAll(t) + [QUOTE], 0);
  }

  lemma EscapeSplits(t: seq<byte>)
    requires t != []
    ensures EscapeAll(t) == Escape(t[0]) + EscapeAll(t[1..])
  {
  }

  lemma {:induction false} SkipEscapes(s: seq<byte>, i: nat, t: seq<byte>)
    requires Stands(s, i, EscapeAll(t) + [QUOTE])
    ensures EndOf(s, i) == Some(i + |EscapeAll(t)|)
    decreases |t|
  {
    hide EndOf, Escape, Stands, EscapeAll;
    if t == [] {
      QuoteNext(s, i, t);
    } else {
      EscapeSplits(t);
      var e, r := Escape(t[0]), EscapeAll(t[1..]) + [QUOTE];
      assert EscapeAll(t) + [QUOTE] == e + r;
      StandsSplit(s, i, e, r);
      SkipEscape(s, i, t[0]);
      SkipEscapes(s, i + |e|, t[1..]);
    }
  }

  /** Strings round-trip: any NUL-free octets, whatever follows the literal. */
  lemma StringRoundTrip(t: CString, rest: seq<byte>)
    ensures ParseString(Quoted(t) + rest) == Some((t, rest))
  {
    hide EndOf, Decode, EscapeAll;
    var e := EscapeAll(t);
    var s := Quoted(t) + rest;
    assert s[1..1 + |e + [QUOTE]|] == e + [QUOTE];
    SkipEscapes(s, 1, t);
    assert s[1..1 + |e|] == e;
    DecodeEscapeAll(t);
    assert s[1 + |e| + 1..] == rest;
  }

  // ------------------------------------------------------ UTF-16 and UTF-8

  /** Unicode scalar values: code points that are no surrogates. */
  predicate Scalar(cp: nat) {
    cp <= 0x10FFFF && !High(cp) && !Low(cp)
  }

  /** The UTF-16 code units of a scalar value. */
  function Units(cp: nat): (u: seq<nat>)
    requires Scalar(cp)
    ensures |u| == if cp < 0x1_0000 then 1 else 2
  {
    if cp < 0x1_0000 then [cp]
    else [0xD800 + (cp - 0x1_0000) / 0x400, 0xDC00 + (cp - 0x1_0000) % 0x400]
  }

  /** Four hex digits, and the code unit they spell. */
  predicate FourDigits(s: seq<byte>) {
    |s| == 4 && forall i :: 0 <= i < 4 ==> HexValue(s[i]).Some?
  }

  function Spelled(s: seq<byte>): nat
    requires FourDigits(s)
  {
    ((HexValue(s[0]).value * 16 + HexValue(s[1]).value) * 16 + HexValue(s[2]).value) * 16 + HexValue(s[3]).value
  }

  /** `s` starts with escapes of exactly these code units. */
  predicate Spells(s: seq<byte>, u: seq<nat>)
    requires 1 <= |u| <= 2
  {
    && |s| >= 6 * |u| && FourDigits(s[2..6]) && Spelled(s[2..6]) == u[0]
    && (|u| == 2 ==> s[6] == BACKSLASH && s[7] == U && FourDigits(s[8..12]) && Spelled(s[8..12]) == u[1])
  }

  /** An escape without four hex digits. */
  predicate Garbled(s: seq<byte>) {
    |s| >= 6 && !FourDigits(s[2..6])
  }

  lemma HexIsSpelled(s: seq<byte>)
    requires |s| == 4
    ensures Hex4(s) == if FourDigits(s) then Spelled(s) else 0
  {
  }

  /** An escape is decoded to a scalar value exactly when it spells that value; a garbled
      one is taken for U+0000. Nothing else is decoded. */
  lemma Utf16Exact(s: seq<byte>, cp: nat)
    ensures Scalar(cp) ==>
      (Utf16(s) == Some((cp, 6 * |Units(cp)|)) <==> Spells(s, Units(cp)) || (cp == 0 && Garbled(s)))
    ensures Utf16(s).Some? ==> Scalar(Utf16(s).value.0) && Utf16(s).value.1 == 6 * |Units(Utf16(s).value.0)|
  {
    hide Hex4, FourDigits, Spelled;
    if |s| >= 6 { HexIsSpelled(s[2..6]); }
    if |s| >= 12 { HexIsSpelled(s[8..12]); }
  }

  /** A reference decoder for UTF-8, table 3-7 of the Unicode standard and section 4
      of RFC 3629: shortest form only, no surrogates. */
  function FromUtf8(u: seq<byte>): Option<nat> {
    if |u| == 1 && u[0] < 0x80 then Some(u[0] as nat)
    else if |u| == 2 && 0xC2 <= u[0] <= 0xDF && Tail(u[1]) then Some((u[0] - 0xC0) as nat * 0x40 + (u[1] - 0x80) as nat)
    else if |u| == 3 && 0xE0 <= u[0] <= 0xEF && Tail(u[1]) && Tail(u[2])
            && (u[0] == 0xE0 ==> u[1] >= 0xA0) && (u[0] == 0xED ==> u[1] <= 0x9F)
      then Some((u[0] - 0xE0) as nat * 0x1000 + (u[1] - 0x80) as nat * 0x40 + (u[2] - 0x80) as nat)
    else if |u| == 4 && 0xF0 <= u[0] <= 0xF4 && Tail(u[1]) && Tail(u[2]) && Tail(u[3])
            && (u[0] == 0xF0 ==> u[1] >= 0x90) && (u[0] == 0xF4 ==> u[1] <= 0x8F)
      then Some((u[0] - 0xF0) as nat * 0x4_0000 + (u[1] - 0x80) as nat * 0x1000
                + (u[2] - 0x80) as nat * 0x40 + (u[3] - 0x80) as nat)
    else None
  }

  predicate Tail(c: byte) { 0x80 <= c <= 0xBF }

  /** `Utf8` writes the UTF-8 sequence of every scalar value. */
  lemma Utf8RoundTrip(cp: nat)
    requires Scalar(cp)
    ensures FromUtf8(Utf8(cp)) == Some(cp)
  {
    if cp < 0x80 {
    } else if cp < 0x800 {
      Two(cp);
    } else if cp < 0x1_0000 {
      Three(cp);
    } else {
      Four(cp);
    }
  }

  lemma Two(cp: nat)
    requires 0x80 <= cp < 0x800
    ensures FromUtf8(Utf8(cp)) == Some(cp)
  {
    assert 0xC2 <= 0xC0 + cp / 0x40 <= 0xDF;
  }

  lemma Three(cp: nat)
    requires Scalar(cp) && 0x800 <= cp < 0x1_0000
    ensures FromUtf8(Utf8(cp)) == Some(cp)
  {
    var a, b := cp / 0x40, cp / 0x1000;
    assert cp == a * 0x40 + cp % 0x40 && a == b * 0x40 + a % 0x40;
    assert b <= 0xF && (b == 0 ==> a % 0x40 >= 0x20) && (b == 0xD ==> a % 0x40 <= 0x1F);
  }

  lemma Four(cp: nat)
    requires 0x1_0000 <= cp <= 0x10FFFF
    ensures FromUtf8(Utf8(cp)) == Some(cp)
  {
    var a, b, c := cp / 0x40, cp / 0x1000, cp / 0x4_0000;
    assert cp == a * 0x40 + cp % 0x40 && a == b * 0x40 + a % 0x40 && b == c * 0x40 + b % 0x40;
    assert c <= 4 && (c == 0 ==> b % 0x40 >= 0x10) && (c == 4 ==> b % 0x40 <= 0xF);
  }

  /** And it is the only one. */
  lemma Utf8Unique(u: seq<byte>)
    requires FromUtf8(u).Some?
    ensures Scalar(FromUtf8(u).value) && u == Utf8(FromUtf8(u).value)
  {
    if |u| == 2 {
      UniqueTwo(u[0] as nat - 0xC0, u[1] as nat - 0x80);
    } else if |u| == 3 {
      UniqueThree(u[0] as nat - 0xE0, u[1] as nat - 0x80, u[2] as nat - 0x80);
    } else if |u| == 4 {
      UniqueFour(u[0] as nat - 0xF0, u[1] as nat - 0x80, u[2] as nat - 0x80, u[3] as nat - 0x80);
    }
  }

  lemma UniqueTwo(a: nat, b: nat)
    requires 2 <= a < 0x20 && b < 0x40
    ensures var cp := a * 0x40 + b; Scalar(cp) && Utf8(cp) == [0xC0 + a, 0x80 + b]
  {
    var cp := a * 0x40 + b;
    assert cp / 0x40 == a && cp % 0x40 == b;
  }

  lemma UniqueThree(a: nat, b: nat, c: nat)
    requires a < 0x10 && b < 0x40 && c < 0x40 && (a == 0 ==> b >= 0x20) && (a == 0xD ==> b < 0x20)
    ensures var cp := a * 0x1000 + b * 0x40 + c; Scalar(cp) && Utf8(cp) == [0xE0 + a, 0x80 + b, 0x80 + c]
  {
    var cp := a * 0x1000 + b * 0x40 + c;
    assert cp / 0x40 == a * 0x40 + b && cp % 0x40 == c;
    assert cp / 0x1000 == a;
  }

  lemma UniqueFour(a: nat, b: nat, c: nat, d: nat)
    requires a <= 4 && b < 0x40 && c < 0x40 && d < 0x40 && (a == 0 ==> b >= 0x10) && (a == 4 ==> b < 0x10)
    ensures var cp := a * 0x4_0000 + b * 0x1000 + c * 0x40 + d;
      Scalar(cp) && Utf8(cp) == [0xF0 + a, 0x80 + b, 0x80 + c, 0x80 + d]
  {
    var cp := a * 0x4_0000 + b * 0x1000 + c * 0x40 + d;
    assert cp / 0x40 == a * 0x1000 + b * 0x40 + c && cp % 0x40 == d;
    assert cp / 0x1000 == a * 0x40 + b;
    assert cp / 0x4_0000 == a;
  }
}
