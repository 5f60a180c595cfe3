/** The loops of `print_string_ptr`, `parse_hex4`, `utf16_literal_to_utf8` and
    `parse_string`, over the buffers they allocate. */
module JsonStringCode {
  import opened Bytes
  import opened JsonStrings

  // ---------------------------------------------------------------- printing

  lemma {:induction false} EscapeAllConcat(a: seq<byte>, b: seq<byte>)
    ensures EscapeAll(a + b) == EscapeAll(a) + EscapeAll(b)
    decreases |a|
  {
    hide Escape;
    if a == [] {
      assert a + b == b;
    } else {
      assert (a + b)[0] == a[0] && (a + b)[1..] == a[1..] + b;
      EscapeAllConcat(a[1..], b);
    }
  }

  lemma EscapeAllAt(s: seq<byte>, i: nat)
    requires i < |s|
    ensures EscapeAll(s[..i + 1]) == EscapeAll(s[..i]) + Escape(s[i])
    ensures |EscapeAll(s[..i])| + |Escape(s[i])| <= |EscapeAll(s)|
  {
    hide Escape;
    EscapeAllConcat(s[..i], [s[i]]);
    assert s[..i + 1] == s[..i] + [s[i]];
    assert EscapeAll([s[i]]) == Escape(s[i]) + EscapeAll([s[i]][1..]);
    EscapeAllConcat(s[..i + 1], s[i + 1..]);
    assert s[..i + 1] + s[i + 1..] == s;
  }

  /** Without escapes the text is the string. */
  lemma {:induction false} PlainText(s: seq<byte>)
    requires |EscapeAll(s)| == |s|
    ensures EscapeAll(s) == s
    decreases |s|
  {
    if s != [] {
      PlainText(s[1..]);
    }
  }

  /** The counting loop of `print_string_ptr`. */
  method CountEscapes(input: CString) returns (n: nat)
    ensures |input| + n == |EscapeAll(input)|
  {
    n := 0;
    var i := 0;
    while i < |input|
      invariant i <= |input| && i + n == |EscapeAll(input[..i])|
    {
      EscapeAllAt(input, i);
      if Letter(input[i]) != 0 {
        n := n + 1;
      } else if input[i] < 32 {
        n := n + 5;
      }
      i := i + 1;
    }
    assert input[..|input|] == input;
  }

  /** One octet of the copying loop; `sprintf` also writes a NUL behind its escape. */
  method PutEscape(c: byte, out: array<byte>, p: nat) returns (q: nat)
    requires c != 0 && p + |Escape(c)| < out.Length
    modifies out
    ensures q == p + |Escape(c)| && out[p..q] == Escape(c) && out[..p] == old(out[..p])
  {
    if c > 31 && c != QUOTE && c != BACKSLASH {
      out[p] := c;
      q := p + 1;
    } else if Letter(c) != 0 {
      out[p], out[p + 1] := BACKSLASH, Letter(c);
      q := p + 2;
    } else {
      out[p], out[p + 1], out[p + 2], out[p + 3] := BACKSLASH, U, 48, 48;
      out[p + 4], out[p + 5], out[p + 6] := HexDigit(c as nat / 16), HexDigit(c as nat % 16), 0;
      q := p + 6;
    }
  }

  /** `print_string_ptr`: the octets counted first are exactly the octets written, so
      the buffer of the counted size always fits. */
  method PrintString(input: CString) returns (out: array<byte>)
    ensures fresh(out) && out[..] == Quoted(input) + [0]
  {
    hide EscapeAll, Escape;
    var n := CountEscapes(input);
    var length := |input| + n;
    out := new byte[length + 3];
    out[0] := QUOTE;
    if n == 0 {
      PlainText(input);
      CopyIn(out, 1, input);
    } else {
      CopyEscaped(input, out);
    }
    Joins(out[..], 0, 1, length + 1);
    ghost var text := out[..length + 1];
    assert text == [QUOTE] + EscapeAll(input);
    out[length + 1] := QUOTE;
    out[length + 2] := 0;
    assert out[..length + 1] == text;
    LastTwo(out[..], length + 1);
  }

  lemma Joins(s: seq<byte>, a: nat, b: nat, c: nat)
    requires a <= b <= c <= |s|
    ensures s[a..c] == s[a..b] + s[b..c] && s[a..b] == s[..b][a..]
  {
  }

  lemma LastTwo(s: seq<byte>, n: nat)
    requires |s| == n + 2
    ensures s == s[..n] + [s[n]] + [s[n + 1]]
  {
  }

  method CopyEscaped(input: CString, out: array<byte>)
    requires out.Length == |EscapeAll(input)| + 3
    modifies out
    ensures out[..1] == old(out[..1]) && out[1..|EscapeAll(input)| + 1] == EscapeAll(input)
  {
    hide EscapeAll, Escape;
    var i, p := 0, 1;
    assert input[..0] == [];
    EscapeNone();
    while i < |input|
      invariant i <= |input| && p == 1 + |EscapeAll(input[..i])| && p <= |EscapeAll(input)| + 1
      invariant out[..1] == old(out[..1]) && out[1..p] == EscapeAll(input[..i])
    {
      EscapeAllAt(input, i);
      ghost var was, p0 := out[..], p;
      p := PutEscape(input[i], out, p);
      Joins(was, 1, p0, p0);
      Joins(out[..], 1, p0, p);
      i := i + 1;
    }
    assert input[..|input|] == input;
  }

  lemma EscapeNone()
    ensures EscapeAll([]) == []
  {
  }

  // ----------------------------------------------------------------- parsing

  /** The first `i` digits. */
  ghost function HexPrefix(s: seq<byte>, i: nat): Option<nat>
    requires i <= |s|
  {
    if i == 0 then Some(0)
    else if HexPrefix(s, i - 1).None? || HexValue(s[i - 1]).None? then None
    else Some(HexPrefix(s, i - 1).value * 16 + HexValue(s[i - 1]).value)
  }

  lemma HexPrefixFour(s: seq<byte>)
    requires |s| >= 4
    ensures Hex4(s) == match HexPrefix(s, 4) case Some(h) => h case None => 0
  {
    assert HexPrefix(s, 1) == HexValue(s[0]);
    assert HexPrefix(s, 2).Some? ==> HexPrefix(s, 2).value == HexValue(s[0]).value * 16 + HexValue(s[1]).value;
    assert HexPrefix(s, 3).Some? ==> HexPrefix(s, 3).value == HexPrefix(s, 2).value * 16 + HexValue(s[2]).value;
  }

  lemma HexPrefixNone(s: seq<byte>, i: nat, j: nat)
    requires i <= j <= |s| && HexPrefix(s, i).None?
    ensures HexPrefix(s, j).None?
    decreases j
  {
    if i < j { HexPrefixNone(s, i, j - 1); }
  }

  /** `parse_hex4` */
  method ParseHex4(s: seq<byte>) returns (h: nat)
    requires |s| >= 4
    ensures h == Hex4(s)
  {
    hide Hex4, HexValue;
    HexPrefixFour(s);
    h := 0;
    var i := 0;
    while i < 4
      invariant i <= 4 && HexPrefix(s, i).Some?
      invariant h == HexPrefix(s, i).value * if i < 4 then 16 else 1
    {
      var d := HexValue(s[i]);
      if d.None? {
        HexPrefixNone(s, i + 1, 4);
        return 0;
      }
      h := h + d.value;
      if i < 3 { h := h * 16; }
      i := i + 1;
    }
  }

  /** The head of `utf16_literal_to_utf8`: the code point and the escape's length. */
  method Utf16Literal(t: seq<byte>) returns (r: Option<(nat, nat)>)
    ensures r == Utf16(t)
  {
    hide Hex4;
    if |t| < 6 { return None; }
    var first := ParseHex4(t[2..6]);
    if 0xDC00 <= first <= 0xDFFF { return None; }
    if first < 0xD800 || first > 0xDBFF { return Some((first, 6)); }
    if |t| < 12 || t[6] != BACKSLASH || t[7] != U { return None; }
    var second := ParseHex4(t[8..12]);
    if second < 0xDC00 || second > 0xDFFF { return None; }
    return Some((0x1_0000 + (first - 0xD800) * 0x400 + (second - 0xDC00), 12));
  }

  /** `c >> 6 * k` */
  ghost function Shifted(c: nat, k: nat): nat {
    if k == 0 then c else Shifted(c, k - 1) / 0x40
  }

  function Length(cp: nat): (n: nat)
    ensures 1 <= n <= 4
  {
    if cp < 0x80 then 1 else if cp < 0x800 then 2 else if cp < 0x1_0000 then 3 else 4
  }

  function Mark(n: nat): nat {
    if n == 1 then 0 else if n == 2 then 0xC0 else if n == 3 then 0xE0 else 0xF0
  }

  lemma Utf8ByShifts(cp: nat)
    requires cp <= 0x10FFFF
    ensures var n := Length(cp); var u := Utf8(cp);
      && |u| == n && u[0] as nat == Mark(n) + Shifted(cp, n - 1)
      && forall j :: 1 <= j < n ==> u[j] as nat == 0x80 + Shifted(cp, n - 1 - j) % 0x40
  {
    assert Shifted(cp, 0) == cp && Shifted(cp, 1) == cp / 0x40;
    assert Shifted(cp, 2) == cp / 0x40 / 0x40 == cp / 0x1000;
    assert Shifted(cp, 3) == cp / 0x1000 / 0x40 == cp / 0x4_0000;
  }

  /** The tail of `utf16_literal_to_utf8`: the continuation octets from the last to the
      second, then the first. */
  method PutUtf8(cp: nat, out: array<byte>, p: nat) returns (q: nat)
    requires cp <= 0x10FFFF && p + |Utf8(cp)| <= out.Length
    modifies out
    ensures q == p + |Utf8(cp)| && out[p..q] == Utf8(cp) && out[..p] == old(out[..p])
  {
    hide Utf8, Length;
    Utf8ByShifts(cp);
    var n, c := Length(cp), cp;
    ghost var u := Utf8(cp);
    var i := n - 1;
    while i > 0
      invariant 0 <= i < n && c == Shifted(cp, n - 1 - i) && out[..p] == old(out[..p])
      invariant forall j :: i < j < n ==> out[p + j] == u[j]
    {
      assert u[i] as nat == 0x80 + c % 0x40;
      out[p + i] := 0x80 + c % 0x40;
      c := c / 0x40;
      i := i - 1;
    }
    out[p] := Mark(n) + c;
    q := p + n;
    forall j | 0 <= j < n ensures out[p..q][j] == u[j] {}
  }

  // ------------------------------------------------- the allocation is enough

  /** How many of the recorded positions are in `lo..hi`. */
  ghost function Window(starts: seq<nat>, lo: int, hi: int): nat {
    if starts == [] then 0
    else Window(starts[..|starts| - 1], lo, hi) + if lo <= starts[|starts| - 1] < hi then 1 else 0
  }

  /** Escapes of one scan: two octets each, in order, inside the literal. */
  ghost predicate Pairs(s: seq<byte>, starts: seq<nat>, end: nat) {
    && (forall i :: 0 <= i < |starts| ==> 1 <= starts[i] && starts[i] + 2 <= end <= |s| && s[starts[i]] == BACKSLASH)
    && (forall i, j :: 0 <= i < j < |starts| ==> starts[i] + 2 <= starts[j])
  }

  lemma {:induction false} WindowSplits(starts: seq<nat>, lo: int, mid: int, hi: int)
    requires lo <= mid <= hi
    ensures Window(starts, lo, hi) == Window(starts, lo, mid) + Window(starts, mid, hi)
    decreases |starts|
  {
    if starts != [] { WindowSplits(starts[..|starts| - 1], lo, mid, hi); }
  }

  /** Pairs do not overlap, so half the octets of a stretch begin one at most. */
  lemma {:induction false} WindowHalf(s: seq<byte>, starts: seq<nat>, end: nat, lo: int, hi: int)
    requires Pairs(s, starts, end) && lo <= hi
    ensures Window(starts, lo, hi) <= (hi - lo + 1) / 2
    decreases |starts|
  {
    if starts != [] {
      var init, last := starts[..|starts| - 1], starts[|starts| - 1];
      if lo <= last < hi {
        WindowEmpty(init, last - 1, hi);
        if lo <= last - 1 {
          WindowSplits(init, lo, last - 1, hi);
          WindowHalf(s, init, end, lo, last - 1);
        } else {
          WindowEmpty(init, lo, hi);
        }
      } else {
        WindowHalf(s, init, end, lo, hi);
      }
    }
  }

  lemma {:induction false} WindowEmpty(starts: seq<nat>, lo: int, hi: int)
    requires forall i :: 0 <= i < |starts| ==> starts[i] < lo
    ensures Window(starts, lo, hi) == 0
    decreases |starts|
  {
    if starts != [] { WindowEmpty(starts[..|starts| - 1], lo, hi); }
  }

  /** What the rest of a literal may still write. */
  ghost function Budget(starts: seq<nat>, ip: int, end: nat): int {
    if ip >= end then 0 else end - ip - Window(starts, ip, end)
  }

  /** Reading `k` octets frees at least what they can produce: one octet for a plain
      octet or a short escape, three for one UTF-16 escape, four for two. */
  lemma BudgetFalls(s: seq<byte>, starts: seq<nat>, end: nat, ip: nat, k: nat)
    requires Pairs(s, starts, end) && ip + k <= end && k > 0
    ensures Budget(starts, ip, end) >= Budget(starts, ip + k, end) + k / 2
    ensures k == 1 && end <= |s| && s[ip] != BACKSLASH ==> Budget(starts, ip, end) >= Budget(starts, ip + k, end) + 1
    ensures 0 <= Budget(starts, ip, end) <= end - ip && 0 <= Budget(starts, ip + k, end)
  {
    if ip + k < end { WindowHalf(s, starts, end, ip + k, end); }
    WindowSplits(starts, ip, ip + k, end);
    WindowHalf(s, starts, end, ip, ip + k);
    WindowHalf(s, starts, end, ip, end);
    if ip + k == end { WindowNone(starts, end); }
    if k == 1 && end <= |s| && s[ip] != BACKSLASH { NoneAt(s, starts, end, ip); }
  }

  lemma {:induction false} WindowNone(starts: seq<nat>, at: int)
    ensures Window(starts, at, at) == 0
    decreases |starts|
  {
    if starts != [] { WindowNone(starts[..|starts| - 1], at); }
  }

  lemma {:induction false} NoneAt(s: seq<byte>, starts: seq<nat>, end: nat, ip: nat)
    requires Pairs(s, starts, end) && ip < |s| && s[ip] != BACKSLASH
    ensures Window(starts, ip, ip + 1) == 0
    decreases |starts|
  {
    if starts != [] { NoneAt(s, starts[..|starts| - 1], end, ip); }
  }

  /** The first loop of `parse_string`: the closing quote, and how many escapes come
      before it. */
  method FindEnd(s: seq<byte>) returns (end: Option<nat>, skipped: nat, ghost starts: seq<nat>)
    requires s != [] && s[0] == QUOTE
    ensures end == EndOf(s, 1)
    ensures end.Some? ==> Pairs(s, starts, end.value) && skipped == |starts|
  {
    var i := 1;
    skipped, starts := 0, [];
    while i < |s| && s[i] != QUOTE
      invariant 1 <= i <= |s| && EndOf(s, i) == EndOf(s, 1) && skipped == |starts| && Pairs(s, starts, i)
      decreases |s| - i
    {
      if s[i] == BACKSLASH {
        if i + 1 >= |s| { return None, skipped, starts; }
        starts := starts + [i];
        skipped := skipped + 1;
        i := i + 1;
      }
      i := i + 1;
    }
    end := if i < |s| then Some(i) else None;
  }

  lemma LastBudget(s: seq<byte>, starts: seq<nat>, end: nat)
    requires Pairs(s, starts, end) && end >= 1
    ensures Budget(starts, end - 1, end) == 1
  {
    WindowEmpty(starts, end - 1, end);
  }

  /** What decoding still has to do from `ip` on. */
  ghost function DecodeFrom(s: seq<byte>, ip: nat, end: nat): Option<seq<byte>>
    requires end <= |s|
  {
    if ip >= end then Some([]) else Decode(s[ip..end])
  }

  lemma DecodeUnicode(s: seq<byte>, ip: nat, end: nat)
    requires ip + 2 <= end <= |s| && s[ip] == BACKSLASH && s[ip + 1] == U
    ensures var r := Utf16(s[ip..end]);
      DecodeFrom(s, ip, end) ==
        if r.None? then None else Prepend(Utf8(r.value.0), DecodeFrom(s, ip + r.value.1, end))
  {
    hide Utf16, Utf8;
    var t := s[ip..end];
    if Utf16(t).Some? {
      var n := Utf16(t).value.1;
      assert t[n..] == s[ip + n..end];
      if ip + n == end { assert Decode(t[n..]) == Some([]); }
    }
  }

  lemma DecodeOther(s: seq<byte>, ip: nat, end: nat)
    requires ip < end < |s| && s[end] == QUOTE
    ensures s[ip] != BACKSLASH ==> DecodeFrom(s, ip, end) == Prepend([s[ip]], DecodeFrom(s, ip + 1, end))
    ensures s[ip] == BACKSLASH && s[ip + 1] != U ==>
      var c := Unescape(s[ip + 1]);
      DecodeFrom(s, ip, end) == if c.None? then None else Prepend([c.value], DecodeFrom(s, ip + 2, end))
  {
    var t := s[ip..end];
    assert t[1..] == s[ip + 1..end];
    if |t| >= 2 { assert t[2..] == s[ip + 2..end]; }
    assert [QUOTE] + [] == [QUOTE];
    if |t| == 1 { assert Decode(t[1..]) == Some([]); }
    if |t| == 2 { assert Decode(t[2..]) == Some([]); }
  }

  /** One turn of the decoding loop. */
  method DecodeOne(s: seq<byte>, ip: nat, end: nat, output: array<byte>, op: nat, ghost starts: seq<nat>)
    returns (ok: bool, ip': nat, op': nat)
    requires ip < end < |s| && s[end] == QUOTE && Pairs(s, starts, end)
    requires op + Budget(starts, ip, end) < output.Length
    modifies output
    ensures !ok ==> DecodeFrom(s, ip, end).None?
    ensures ok ==> ip < ip' && op <= op' <= output.Length && output[..op] == old(output[..op])
                   && op' + Budget(starts, ip', end) <= op + Budget(starts, ip, end)
                   && DecodeFrom(s, ip, end) == Prepend(output[op..op'], DecodeFrom(s, ip', end))
  {
    hide Utf16, Utf8, Window, DecodeFrom;
    ok, ip', op' := false, ip, op;
    DecodeOther(s, ip, end);
    if s[ip] != BACKSLASH {
      BudgetFalls(s, starts, end, ip, 1);
      output[op] := s[ip];
      return true, ip + 1, op + 1;
    }
    if s[ip + 1] == U {
      DecodeUnicode(s, ip, end);
      var r := Utf16Literal(s[ip..end]);
      if r.None? { return; }
      BudgetFalls(s, starts, end, ip, r.value.1);
      op' := PutUtf8(r.value.0, output, op);
      return true, ip + r.value.1, op';
    }
    var c := Unescape(s[ip + 1]);
    if c.None? { return; }
    if ip + 1 == end { LastBudget(s, starts, end); } else { BudgetFalls(s, starts, end, ip, 2); }
    output[op] := c.value;
    return true, ip + 2, op + 1;
  }

  lemma PrependAssoc(a: seq<byte>, b: seq<byte>, r: Option<seq<byte>>)
    ensures Prepend(a, Prepend(b, r)) == Prepend(a + b, r)
  {
    if r.Some? { assert a + (b + r.value) == (a + b) + r.value; }
  }

  /** The second loop of `parse_string`: whatever the literal holds, also malformed
      escapes that overlap, the output fits the allocation made before it. */
  method DecodeBody(s: seq<byte>, end: nat, skipped: nat, ghost starts: seq<nat>) returns (r: Option<seq<byte>>)
    requires 1 <= end < |s| && s[end] == QUOTE && Pairs(s, starts, end) && skipped == |starts|
    ensures r == Decode(s[1..end])
  {
    hide Window, Decode;
    WindowAll(s, starts, end);
    var allocation := end - skipped;
    var output := new byte[allocation + 1];
    var ip, op := 1, 0;
    DecodeEmpty(s, end);
    while ip < end
      invariant 1 <= ip && op <= output.Length && op + Budget(starts, ip, end) <= allocation - 1
      invariant Decode(s[1..end]) == Prepend(output[..op], DecodeFrom(s, ip, end))
      decreases end - ip
    {
      ghost var was, op0, ip0 := output[..op], op, ip;
      var ok;
      ok, ip, op := DecodeOne(s, ip, end, output, op, starts);
      if !ok { return None; }
      PrependAssoc(was, output[op0..op], DecodeFrom(s, ip, end));
      assert was + output[op0..op] == output[..op];
    }
    ghost var out := output[..op];
    assert out + [] == out;
    output[op] := 0;
    r := Some(output[..op]);
    assert output[..op] == out;
  }

  lemma DecodeEmpty(s: seq<byte>, end: nat)
    requires 1 <= end <= |s|
    ensures Decode(s[1..end]) == Prepend([], DecodeFrom(s, 1, end))
  {
    if end == 1 { assert s[1..1] == []; }
    if Decode(s[1..end]).Some? { assert [] + Decode(s[1..end]).value == Decode(s[1..end]).value; }
  }

  lemma WindowAll(s: seq<byte>, starts: seq<nat>, end: nat)
    requires Pairs(s, starts, end) && 1 <= end
    ensures Budget(starts, 1, end) == end - 1 - |starts| >= 0
  {
    Everything(s, starts, end);
    WindowHalf(s, starts, end, 1, end);
  }

  lemma {:induction false} Everything(s: seq<byte>, starts: seq<nat>, end: nat)
    requires Pairs(s, starts, end)
    ensures Window(starts, 1, end) == |starts|
    decreases |starts|
  {
    if starts != [] { Everything(s, starts[..|starts| - 1], end); }
  }

  /** `parse_string` */
  method ReadString(s: seq<byte>) returns (r: Option<(CString, seq<byte>)>)
    requires s != []
    ensures r == ParseString(s)
  {
    hide EndOf, Decode, Pairs;
    if s[0] != QUOTE { return None; }
    var end, skipped, starts := FindEnd(s);
    if end.None? { return None; }
    var out := DecodeBody(s, end.value, skipped, starts);
    if out.None? { return None; }
    return Some((CStr(out.value), s[end.value + 1..]));
  }
}
