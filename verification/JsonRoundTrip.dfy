/** Printing and parsing are inverses. */
module JsonRoundTrip {
  import opened Bytes
  import opened JsonStrings
  import opened Json

  // ----------------------------------------------------------------- numbers

  lemma {:induction false} DigitsBack(n: nat)
    ensures Value(Digits(n)) == n
    decreases n
  {
    if n >= 10 {
      DigitsBack(n / 10);
      assert Digits(n)[..|Digits(n)| - 1] == Digits(n / 10);
    } else {
      assert Digits(n)[..0] == [];
    }
  }

  lemma {:induction false} RunExact(d: seq<byte>, rest: seq<byte>)
    requires forall i :: 0 <= i < |d| ==> NumberChar(d[i])
    requires rest != [] && !NumberChar(rest[0])
    ensures Run(d + rest) == |d|
    decreases |d|
  {
    if d == [] {
      assert d + rest == rest;
    } else {
      assert (d + rest)[1..] == d[1..] + rest;
      RunExact(d[1..], rest);
    }
  }

  lemma NumberBack(n: int32, rest: seq<byte>)
    requires rest != [] && !NumberChar(rest[0])
    ensures ParseNumber(Decimal(n) + rest) == Done(Number(n), rest)
  {
    hide Digits, Value, Run;
    var d := Decimal(n);
    RunExact(d, rest);
    assert (d + rest)[..|d|] == d && (d + rest)[|d|..] == rest;
    if n < 0 {
      var m: int := n;
      DigitsBack(-m);
      assert d[1..] == Digits(-m);
    } else {
      DigitsBack(n);
    }
  }

  // -------------------------------------------------------------- whitespace

  predicate Blank(w: seq<byte>) {
    forall i :: 0 <= i < |w| ==> w[i] <= 32
  }

  lemma {:induction false} SkipBlank(w: seq<byte>, x: seq<byte>)
    requires Blank(w) && x != [] && x[0] > 32
    ensures Skip(w + x) == x
    decreases |w|
  {
    TrimBlank(w, x);
  }

  lemma {:induction false} TrimBlank(w: seq<byte>, x: seq<byte>)
    requires Blank(w) && x != [] && x[0] > 32
    ensures Trim(w + x) == x
    decreases |w|
  {
    if w == [] {
      assert w + x == x;
    } else {
      assert (w + x)[1..] == w[1..] + x;
      TrimBlank(w[1..], x);
    }
  }

  // ------------------------------------------------------------------ values

  /** What may follow a value: anything a number cannot swallow. */
  predicate Stops(rest: seq<byte>) {
    rest != [] && !NumberChar(rest[0])
  }

  /** Texts of scalars do not look like anything else. */
  lemma ScalarBack(v: Json, fmt: bool, depth: nat, rest: seq<byte>)
    requires !v.Arr? && !v.Obj? && Stops(rest)
    ensures ParseValue(Print(v, fmt, depth).value + rest, depth) == Done(v, rest)
  {
    hide ParseNumber, Decimal, JsonStrings.ParseString, Quoted, Run;
    var s := Print(v, fmt, depth).value + rest;
    match v
    case Null => assert s[4..] == rest;
    case Bool(b) => if b { assert s[4..] == rest; } else { assert s[5..] == rest; }
    case Number(n) => NumberBack(n, rest);
    case Str(t) =>
      StringRoundTrip(t, rest);
      QuotedHead(t);
  }

  lemma QuotedHead(t: CString)
    ensures Quoted(t) != [] && Quoted(t)[0] == QUOTE
  {
  }

  lemma Opens(s: seq<byte>, depth: nat)
    requires s != []
    ensures s[0] == OPEN ==> ParseValue(s, depth) == ParseArray(s, depth)
    ensures s[0] == BEGIN ==> ParseValue(s, depth) == ParseObject(s, depth)
  {
    hide ParseArray, ParseObject, ParseNumber, JsonStrings.ParseString;
  }

  lemma SameItems(s: seq<byte>, t: seq<byte>, depth: nat)
    requires Skip(s) == Skip(t)
    ensures ParseItems(s, depth) == ParseItems(t, depth)
  {
  }

  lemma SameMembers(s: seq<byte>, t: seq<byte>, depth: nat)
    requires Skip(s) == Skip(t) && s != [] && t != []
    ensures ParseMembers(s, depth) == ParseMembers(t, depth)
  {
  }

  /** One element, then the rest of the list. */
  lemma ItemThen(s: seq<byte>, depth: nat, v: Json, x: seq<byte>)
    requires s != [] && s[0] > 32 && ParseValue(s, depth) == Done(v, x) && x != [] && x[0] > 32
    ensures x[0] == CLOSE ==> ParseItems(s, depth) == Done([v], x[1..])
    ensures x[0] == COMMA && ParseItems(x[1..], depth).Done? ==>
      ParseItems(s, depth) == Done([v] + ParseItems(x[1..], depth).value, ParseItems(x[1..], depth).rest)
  {
    SkipBlank([], s);
    SkipBlank([], x);
    assert [] + s == s && [] + x == x;
    hide ParseValue, Skip;
  }

  /** The text of an element list, taken apart at its first element. */
  lemma ItemText(items: seq<Json>, fmt: bool, depth: nat, end: seq<byte>) returns (w: seq<byte>, x: seq<byte>)
    requires items != [] && PrintItems(items, fmt, depth).Some?
    ensures Print(items[0], fmt, depth).Some? && PrintItems(items[1..], fmt, depth).Some? && Blank(w)
    ensures x == if |items| == 1 then end else [COMMA] + (w + (PrintItems(items[1..], fmt, depth).value + end))
    ensures PrintItems(items, fmt, depth).value + end == Print(items[0], fmt, depth).value + x
  {
    hide Print;
    var h, t := Print(items[0], fmt, depth).value, PrintItems(items[1..], fmt, depth).value;
    w := if fmt then [SPACE] else [];
    if |items| == 1 {
      x := end;
      assert h + [] + t + end == h + end;
    } else {
      x := [COMMA] + (w + (t + end));
      assert (if fmt then [COMMA, SPACE] else [COMMA]) == [COMMA] + w;
      assert h + ([COMMA] + w) + t + end == h + x;
    }
  }

  lemma {:induction false} ItemsBack(items: seq<Json>, fmt: bool, depth: nat, rest: seq<byte>)
    requires items != [] && PrintItems(items, fmt, depth).Some?
    ensures ParseItems(PrintItems(items, fmt, depth).value + [CLOSE] + rest, depth) == Done(items, rest)
    decreases items, 0
  {
    hide ParseValue, ParseItems, Skip, PrintItems, Print;
    var end := [CLOSE] + rest;
    var w, x := ItemText(items, fmt, depth, end);
    var s := Print(items[0], fmt, depth).value + x;
    assert s == PrintItems(items, fmt, depth).value + [CLOSE] + rest;
    if |items| == 1 {
      ValueBack(items[0], fmt, depth, x);
      ItemThen(s, depth, items[0], x);
      assert items == [items[0]];
    } else {
      ValueBack(items[0], fmt, depth, x);
      MoreItems(items, fmt, depth, w, rest);
      assert x[1..] == w + (PrintItems(items[1..], fmt, depth).value + end);
      ItemThen(s, depth, items[0], x);
      assert items == [items[0]] + items[1..];
    }
  }

  /** Behind an element and its comma. */
  lemma {:induction false} MoreItems(items: seq<Json>, fmt: bool, depth: nat, w: seq<byte>, rest: seq<byte>)
    requires |items| > 1 && PrintItems(items[1..], fmt, depth).Some? && Blank(w)
    ensures ParseItems(w + (PrintItems(items[1..], fmt, depth).value + ([CLOSE] + rest)), depth) == Done(items[1..], rest)
    decreases items[1..], 1
  {
    hide ParseItems, Skip;
    var y := PrintItems(items[1..], fmt, depth).value + ([CLOSE] + rest);
    assert y == PrintItems(items[1..], fmt, depth).value + [CLOSE] + rest;
    ItemsBack(items[1..], fmt, depth, rest);
    SkipBlank(w, y);
    SkipBlank([], y);
    assert [] + y == y;
    SameItems(w + y, y, depth);
  }

  lemma {:induction false} ArrayBack(items: seq<Json>, fmt: bool, depth: nat, rest: seq<byte>)
    requires Print(Arr(items), fmt, depth).Some?
    ensures ParseValue(Print(Arr(items), fmt, depth).value + rest, depth) == Done(Arr(items), rest)
    decreases items, 1
  {
    hide ParseValue, ParseItems, Skip;
    var r := PrintItems(items, fmt, depth + 1).value;
    var s, x := [OPEN] + r + [CLOSE] + rest, r + [CLOSE] + rest;
    assert s[1..] == x;
    Opens(s, depth);
    SkipBlank([], x);
    assert [] + x == x;
    if items != [] { ItemsBack(items, fmt, depth + 1, rest); }
  }

  /** Every value that prints parses back, whatever follows that is no number. */
  lemma {:induction false} ValueBack(v: Json, fmt: bool, depth: nat, rest: seq<byte>)
    requires Print(v, fmt, depth).Some? && Stops(rest)
    ensures ParseValue(Print(v, fmt, depth).value + rest, depth) == Done(v, rest)
    decreases v, 2
  {
    match v
    case Arr(items) => ArrayBack(items, fmt, depth, rest);
    case Obj(members) => ObjectBack(members, fmt, depth, rest);
    case _ => ScalarBack(v, fmt, depth, rest);
  }

  lemma {:induction false} ObjectBack(members: seq<Member>, fmt: bool, depth: nat, rest: seq<byte>)
    requires Print(Obj(members), fmt, depth).Some?
    ensures ParseValue(Print(Obj(members), fmt, depth).value + rest, depth) == Done(Obj(members), rest)
    decreases members, 2
  {
    hide ParseValue, ParseObject, PrintMembers, Tabs;
    var r := PrintMembers(members, fmt, depth + 1).value;
    var nl: seq<byte> := if fmt then [NEWLINE] else [];
    var w: seq<byte> := if fmt then Tabs(depth) else [];
    var s := [BEGIN] + nl + r + w + [END] + rest;
    assert s == [BEGIN] + (nl + (r + w + [END] + rest));
    Opens(s, depth);
    BodyBack(members, fmt, depth, nl, w, rest);
  }

  /** Everything behind the opening brace. */
  lemma {:induction false} BodyBack(members: seq<Member>, fmt: bool, depth: nat, nl: seq<byte>, w: seq<byte>, rest: seq<byte>)
    requires depth < NESTING_LIMIT && PrintMembers(members, fmt, depth + 1).Some? && Blank(nl) && Blank(w)
    ensures var x := PrintMembers(members, fmt, depth + 1).value + w + [END] + rest;
      ParseObject([BEGIN] + (nl + x), depth) == Done(Obj(members), rest)
    decreases members, 1
  {
    hide ParseMembers, Skip;
    var x := PrintMembers(members, fmt, depth + 1).value + w + [END] + rest;
    assert ([BEGIN] + (nl + x))[1..] == nl + x;
    if members == [] {
      assert nl + x == (nl + w) + ([END] + rest);
      SkipBlank(nl + w, [END] + rest);
    } else {
      var y := BodyHead(members, fmt, depth + 1, nl, w, rest);
      MembersBack(members, fmt, depth + 1, w, rest);
    }
  }

  lemma BodyHead(members: seq<Member>, fmt: bool, depth: nat, nl: seq<byte>, w: seq<byte>, rest: seq<byte>)
    returns (y: seq<byte>)
    requires members != [] && PrintMembers(members, fmt, depth).Some? && Blank(nl)
    ensures var x := PrintMembers(members, fmt, depth).value + w + [END] + rest;
      && Skip(nl + x) == y && y != [] && y[0] == QUOTE
      && ParseMembers(y, depth) == ParseMembers(x, depth)
  {
    hide PrintMembers, ParseMembers, Skip;
    var ws, q := MembersHead(members, fmt, depth);
    y := q + w + [END] + rest;
    var x := PrintMembers(members, fmt, depth).value + w + [END] + rest;
    assert x == ws + y && nl + x == (nl + ws) + y;
    SkipBlank(nl + ws, y);
    SkipBlank(ws, y);
    SkipBlank([], y);
    assert [] + y == y;
    SameMembers(y, x, depth);
  }

  /** The text of a member list starts with blanks and a quote. */
  lemma MembersHead(members: seq<Member>, fmt: bool, depth: nat) returns (ws: seq<byte>, q: seq<byte>)
    requires members != [] && PrintMembers(members, fmt, depth).Some?
    ensures PrintMembers(members, fmt, depth).value == ws + q && Blank(ws) && q != [] && q[0] == QUOTE
  {
    hide Print, EscapeAll;
    ws := if fmt then Tabs(depth) else [];
    q := PrintMembers(members, fmt, depth).value[|ws|..];
    QuotedHead(members[0].key);
  }

  /** One member, then the rest of the list. */
  lemma MemberThen(s: seq<byte>, depth: nat, key: CString, y: seq<byte>, v: Json, x: seq<byte>)
    requires s != [] && Skip(s) == Quoted(key) + y && y != [] && y[0] == COLON
    requires ParseValue(Skip(y[1..]), depth) == Done(v, x) && Skip(x) != []
    ensures Skip(x)[0] == END ==> ParseMembers(s, depth) == Done([Member(key, v)], Skip(x)[1..])
    ensures Skip(x)[0] == COMMA && ParseMembers(Skip(x)[1..], depth).Done? ==>
      ParseMembers(s, depth) ==
      Done([Member(key, v)] + ParseMembers(Skip(x)[1..], depth).value, ParseMembers(Skip(x)[1..], depth).rest)
  {
    StringRoundTrip(key, y);
    SkipBlank([], y);
    assert [] + y == y;
    hide ParseValue, Skip, JsonStrings.ParseString, Quoted;
  }

  /** The text of a member list, taken apart at its first member. */
  lemma MemberText(members: seq<Member>, fmt: bool, depth: nat, end: seq<byte>)
    returns (t: seq<byte>, c: seq<byte>, x: seq<byte>, nl: seq<byte>)
    requires members != [] && PrintMembers(members, fmt, depth).Some?
    ensures PrintMembers(members[1..], fmt, depth).Some? && Print(members[0].value, fmt, depth).Some?
    ensures Blank(t) && Blank(c) && Blank(nl)
    ensures x == (if |members| == 1 then [] else [COMMA]) + nl + PrintMembers(members[1..], fmt, depth).value + end
    ensures PrintMembers(members, fmt, depth).value + end ==
      t + (Quoted(members[0].key) + ([COLON] + (c + (Print(members[0].value, fmt, depth).value + x))))
  {
    hide Quoted, Print;
    t := if fmt then Tabs(depth) else [];
    c := if fmt then [TAB] else [];
    nl := if fmt then [NEWLINE] else [];
    var comma: seq<byte> := if |members| == 1 then [] else [COMMA];
    var tail := PrintMembers(members[1..], fmt, depth).value;
    x := comma + nl + tail + end;
    assert (if fmt then [COLON, TAB] else [COLON]) == [COLON] + c;
    Regroup(t, Quoted(members[0].key), c, Print(members[0].value, fmt, depth).value, comma, nl, tail, end);
  }

  lemma Regroup(t: seq<byte>, q: seq<byte>, c: seq<byte>, h: seq<byte>, comma: seq<byte>, nl: seq<byte>,
                tail: seq<byte>, end: seq<byte>)
    ensures t + q + ([COLON] + c) + h + comma + nl + tail + end ==
            t + (q + ([COLON] + (c + (h + (comma + nl + tail + end)))))
  {
  }

  lemma MembersBack(members: seq<Member>, fmt: bool, depth: nat, w: seq<byte>, rest: seq<byte>)
    requires members != [] && PrintMembers(members, fmt, depth).Some? && Blank(w)
    ensures ParseMembers(PrintMembers(members, fmt, depth).value + w + [END] + rest, depth) == Done(members, rest)
    decreases members, 0
  {
    hide ParseValue, ParseMembers, Skip, Quoted, PrintMembers;
    var m, end := members[0], w + [END] + rest;
    var t, c, x, nl := MemberText(members, fmt, depth, end);
    var head := Print(m.value, fmt, depth).value;
    hide Print;
    var y := [COLON] + (c + (head + x));
    var s := t + (Quoted(m.key) + y);
    assert s == PrintMembers(members, fmt, depth).value + w + [END] + rest;
    QuotedHead(m.key);
    SkipBlank(t, Quoted(m.key) + y);
    SkipBlank(c, head + x);
    assert y[1..] == c + (head + x);
    if |members| == 1 {
      NoMembers(fmt, depth);
      assert x == (nl + w) + ([END] + rest);
      SkipBlank(nl + w, [END] + rest);
      ValueBack(m.value, fmt, depth, x);
      MemberThen(s, depth, m.key, y, m.value, x);
      assert members == [m];
    } else {
      assert x == [COMMA] + nl + PrintMembers(members[1..], fmt, depth).value + w + [END] + rest;
      MoreMembers(members, fmt, depth, w, rest, nl, x);
      ValueBack(m.value, fmt, depth, x);
      MemberThen(s, depth, m.key, y, m.value, x);
      assert members == [m] + members[1..];
    }
  }

  lemma NoMembers(fmt: bool, depth: nat)
    ensures PrintMembers([], fmt, depth) == Some([])
  {
  }

  /** Behind a member and its comma. */
  lemma MoreMembers(members: seq<Member>, fmt: bool, depth: nat, w: seq<byte>, rest: seq<byte>, nl: seq<byte>, x: seq<byte>)
    requires |members| > 1 && PrintMembers(members[1..], fmt, depth).Some? && Blank(w) && Blank(nl)
    requires x == [COMMA] + nl + PrintMembers(members[1..], fmt, depth).value + w + [END] + rest
    ensures Skip(x) == x && ParseMembers(x[1..], depth) == Done(members[1..], rest)
    decreases members[1..], 1
  {
    hide ParseMembers, Skip, PrintMembers;
    var ws, q := MembersHead(members[1..], fmt, depth);
    var z := q + w + [END] + rest;
    var u := ws + z;
    assert u == PrintMembers(members[1..], fmt, depth).value + w + [END] + rest;
    MembersBack(members[1..], fmt, depth, w, rest);
    SkipBlank(ws, z);
    SkipBlank(nl + ws, z);
    assert x[1..] == (nl + ws) + z;
    SameMembers(x[1..], u, depth);
    SkipBlank([], x);
    assert [] + x == x;
  }

  // ------------------------------------------------------- texts are C strings

  lemma {:induction false} EscapeAllNoNul(s: CString)
    ensures 0 !in EscapeAll(s)
    decreases |s|
  {
    if s != [] {
      hide Escape;
      EscapeAllNoNul(s[1..]);
    }
  }

  lemma {:induction false} NoNul(v: Json, fmt: bool, depth: nat)
    requires Print(v, fmt, depth).Some?
    ensures 0 !in Print(v, fmt, depth).value
    decreases v
  {
    hide EscapeAll, Digits;
    match v
    case Str(s) => EscapeAllNoNul(s);
    case Arr(items) => ItemsNoNul(items, fmt, depth + 1);
    case Obj(members) => MembersNoNul(members, fmt, depth + 1);
    case _ =>
  }

  lemma {:induction false} ItemsNoNul(items: seq<Json>, fmt: bool, depth: nat)
    requires PrintItems(items, fmt, depth).Some?
    ensures 0 !in PrintItems(items, fmt, depth).value
    decreases items
  {
    if items != [] {
      NoNul(items[0], fmt, depth);
      ItemsNoNul(items[1..], fmt, depth);
    }
  }

  lemma {:induction false} MembersNoNul(members: seq<Member>, fmt: bool, depth: nat)
    requires PrintMembers(members, fmt, depth).Some?
    ensures 0 !in PrintMembers(members, fmt, depth).value
    decreases members
  {
    if members != [] {
      hide EscapeAll;
      EscapeAllNoNul(members[0].key);
      NoNul(members[0].value, fmt, depth);
      MembersNoNul(members[1..], fmt, depth);
    }
  }

  /** The codec's law: every tree that prints, formatted or not, parses back from its
      text, up to the terminating NUL. */
  lemma RoundTrip(v: Json, fmt: bool)
    requires Print(v, fmt, 0).Some?
    ensures 0 !in Print(v, fmt, 0).value
    ensures Parse(Print(v, fmt, 0).value) == Done(v, [0])
  {
    hide Print, ParseValue;
    NoNul(v, fmt, 0);
    var text := Print(v, fmt, 0).value;
    ValueBack(v, fmt, 0, [0]);
    SkipBlank([], text + [0]);
    assert [] + (text + [0]) == text + [0];
  }

  /** How deep a value is nested. */
  function Depth(v: Json): nat
    decreases v
  {
    match v
    case Arr(items) => 1 + ItemsDepth(items)
    case Obj(members) => 1 + MembersDepth(members)
    case _ => 0
  }

  function ItemsDepth(items: seq<Json>): nat
    decreases items
  {
    if items == [] then 0
    else
      var a, b := Depth(items[0]), ItemsDepth(items[1..]);
      if a < b then b else a
  }

  function MembersDepth(members: seq<Member>): nat
    decreases members
  {
    if members == [] then 0
    else
      var a, b := Depth(members[0].value), MembersDepth(members[1..]);
      if a < b then b else a
  }

  /** Which trees print: those nested at most 1000 deep. */
  lemma {:induction false} PrintsIff(v: Json, fmt: bool, depth: nat)
    requires depth <= NESTING_LIMIT
    ensures Print(v, fmt, depth).Some? <==> depth + Depth(v) <= NESTING_LIMIT
    decreases v
  {
    hide Quoted, Decimal;
    match v
    case Arr(items) => if depth < NESTING_LIMIT { ItemsPrintIff(items, fmt, depth + 1); }
    case Obj(members) => if depth < NESTING_LIMIT { MembersPrintIff(members, fmt, depth + 1); }
    case _ =>
  }

  lemma {:induction false} ItemsPrintIff(items: seq<Json>, fmt: bool, depth: nat)
    requires depth <= NESTING_LIMIT
    ensures PrintItems(items, fmt, depth).Some? <==> depth + ItemsDepth(items) <= NESTING_LIMIT
    decreases items
  {
    if items != [] {
      PrintsIff(items[0], fmt, depth);
      ItemsPrintIff(items[1..], fmt, depth);
    }
  }

  lemma {:induction false} MembersPrintIff(members: seq<Member>, fmt: bool, depth: nat)
    requires depth <= NESTING_LIMIT
    ensures PrintMembers(members, fmt, depth).Some? <==> depth + MembersDepth(members) <= NESTING_LIMIT
    decreases members
  {
    if members != [] {
      hide Quoted;
      PrintsIff(members[0].value, fmt, depth);
      MembersPrintIff(members[1..], fmt, depth);
    }
  }
}
