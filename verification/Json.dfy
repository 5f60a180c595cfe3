/** The JSON values of the IPC socket, printed and parsed. Numbers are the integers an
    `int` holds; the texts are octets. */
module Json {
  import opened Bytes
  import opened JsonStrings

  const NESTING_LIMIT: nat := 1000

  const NULL_TEXT: seq<byte> := [110, 117, 108, 108]
  const TRUE_TEXT: seq<byte> := [116, 114, 117, 101]
  const FALSE_TEXT: seq<byte> := [102, 97, 108, 115, 101]
  const TAB: byte := 9
  const NEWLINE: byte := 10
  const SPACE: byte := 32
  const COMMA: byte := 44
  const MINUS: byte := 45
  const COLON: byte := 58
  const OPEN: byte := 91
  const CLOSE: byte := 93
  const BEGIN: byte := 123
  const END: byte := 125

  type int32 = x: int | -0x8000_0000 <= x < 0x8000_0000

  datatype Json =
    | Null
    | Bool(b: bool)
    | Number(n: int32)
    | Str(s: CString)
    | Arr(items: seq<Json>)
    | Obj(members: seq<Member>)

  datatype Member = Member(key: CString, value: Json)

  // ---------------------------------------------------------------- printing

  /** Decimal digits, as `%d` prints them. */
  function Digits(n: nat): (d: seq<byte>)
    ensures |d| > 0 && forall i :: 0 <= i < |d| ==> 48 <= d[i] <= 57
  {
    if n < 10 then [48 + n] else Digits(n / 10) + [48 + n % 10]
  }

  function Decimal(n: int): (d: seq<byte>)
    ensures |d| > 0 && (d[0] == MINUS || 48 <= d[0] <= 57)
  {
    if n < 0 then [MINUS] + Digits(-n) else Digits(n)
  }

  function Tabs(n: nat): (t: seq<byte>)
    ensures |t| == n && forall i :: 0 <= i < n ==> t[i] == TAB
  {
    seq(n, i => TAB)
  }

  /** `print_value` at nesting depth `depth`; None when the nesting is too deep. */
  function Print(v: Json, fmt: bool, depth: nat): (r: Option<seq<byte>>)
    ensures r.Some? ==> |r.value| > 0 && 32 < r.value[0] < 128 && r.value[0] != CLOSE && r.value[0] != END
    decreases v
  {
    match v
    case Null => Some(NULL_TEXT)
    case Bool(b) => Some(if b then TRUE_TEXT else FALSE_TEXT)
    case Number(n) => Some(Decimal(n))
    case Str(s) => Some(Quoted(s))
    case Arr(items) =>
      if depth >= NESTING_LIMIT then None
      else
        var r := PrintItems(items, fmt, depth + 1);
        if r.None? then None else Some([OPEN] + r.value + [CLOSE])
    case Obj(members) =>
      if depth >= NESTING_LIMIT then None
      else
        var r := PrintMembers(members, fmt, depth + 1);
        if r.None? then None
        else Some([BEGIN] + (if fmt then [NEWLINE] else []) + r.value + (if fmt then Tabs(depth) else []) + [END])
  }

  function PrintItems(items: seq<Json>, fmt: bool, depth: nat): (r: Option<seq<byte>>)
    decreases items
  {
    if items == [] then Some([])
    else
      var head, tail := Print(items[0], fmt, depth), PrintItems(items[1..], fmt, depth);
      if head.None? || tail.None? then None
      else Some(head.value + (if |items| == 1 then [] else if fmt then [COMMA, SPACE] else [COMMA]) + tail.value)
  }

  function PrintMembers(members: seq<Member>, fmt: bool, depth: nat): (r: Option<seq<byte>>)
    decreases members
  {
    if members == [] then Some([])
    else
      var head := Print(members[0].value, fmt, depth);
      var tail := PrintMembers(members[1..], fmt, depth);
      if head.None? || tail.None? then None
      else Some((if fmt then Tabs(depth) else []) + Quoted(members[0].key) + (if fmt then [COLON, TAB] else [COLON])
                + head.value + (if |members| == 1 then [] else [COMMA]) + (if fmt then [NEWLINE] else []) + tail.value)
  }

  // ----------------------------------------------------------------- parsing

  /** A parse: the value and the input behind it, a failure, or a numeral that is not
      a plain 32-bit integer (the code hands it to `strtod`; this model stops). */
  datatype Parsed<T> = Done(value: T, rest: seq<byte>) | Failed | Numeral

  /** Drops leading octets up to 32. */
  function Trim(s: seq<byte>): (t: seq<byte>)
    ensures |t| <= |s| && (t != [] ==> t[0] > 32)
  {
    if s == [] || s[0] > 32 then s else Trim(s[1..])
  }

  /** `buffer_skip_whitespace`: at the end of the input it steps back by one. */
  function Skip(s: seq<byte>): (t: seq<byte>)
    ensures |t| <= |s| && (s != [] ==> t != [])
  {
    if s != [] && Trim(s) == [] then s[|s| - 1..] else Trim(s)
  }

  predicate NumberChar(c: byte) {
    48 <= c <= 57 || c == 43 || c == MINUS || c == 101 || c == 69 || c == 46
  }

  /** The maximal run of characters a number may have. */
  function Run(s: seq<byte>): (n: nat)
    ensures n <= |s| && forall i :: 0 <= i < n ==> NumberChar(s[i])
    ensures n < |s| ==> !NumberChar(s[n])
  {
    if s == [] || !NumberChar(s[0]) then 0 else 1 + Run(s[1..])
  }

  predicate AllDigits(s: seq<byte>) {
    |s| > 0 && forall i :: 0 <= i < |s| ==> 48 <= s[i] <= 57
  }

  function Value(s: seq<byte>): nat
    requires forall i :: 0 <= i < |s| ==> 48 <= s[i] <= 57
  {
    if s == [] then 0 else Value(s[..|s| - 1]) * 10 + (s[|s| - 1] - 48) as nat
  }

  /** The integer a numeral spells, if it is one. */
  function Integer(s: seq<byte>): Option<int> {
    if AllDigits(s) then Some(Value(s) as int)
    else if s != [] && s[0] == MINUS && AllDigits(s[1..]) then Some(0 - Value(s[1..]) as int)
    else None
  }

  /** `parse_number` */
  function ParseNumber(s: seq<byte>): (r: Parsed<Json>)
    ensures r.Done? ==> |r.rest| < |s|
  {
    var n := Run(s);
    match Integer(s[..n])
    case None => Numeral
    case Some(v) => if -0x8000_0000 <= v < 0x8000_0000 then Done(Number(v), s[n..]) else Numeral
  }

  /** `parse_value` */
  function ParseValue(s: seq<byte>, depth: nat): (r: Parsed<Json>)
    ensures r.Done? ==> |r.rest| < |s|
    decreases |s|, 1
  {
    if NULL_TEXT <= s then Done(Null, s[4..])
    else if FALSE_TEXT <= s then Done(Bool(false), s[5..])
    else if TRUE_TEXT <= s then Done(Bool(true), s[4..])
    else if s == [] then Failed
    else if s[0] == QUOTE then
      match ParseString(s)
      case None => Failed
      case Some((t, rest)) => Done(Str(t), rest)
    else if s[0] == MINUS || 48 <= s[0] <= 57 then ParseNumber(s)
    else if s[0] == OPEN then ParseArray(s, depth)
    else if s[0] == BEGIN then ParseObject(s, depth)
    else Failed
  }

  /** `parse_array` */
  function ParseArray(s: seq<byte>, depth: nat): (r: Parsed<Json>)
    requires s != []
    ensures r.Done? ==> |r.rest| < |s|
    decreases |s|, 0
  {
    if depth >= NESTING_LIMIT then Failed
    else
      var t := Skip(s[1..]);
      if t == [] then Failed
      else if t[0] == CLOSE then Done(Arr([]), t[1..])
      else
        match ParseItems(t, depth + 1)
        case Failed => Failed
        case Numeral => Numeral
        case Done(items, rest) => Done(Arr(items), rest)
  }

  /** The elements from one on, up to the closing bracket. */
  function ParseItems(s: seq<byte>, depth: nat): (r: Parsed<seq<Json>>)
    ensures r.Done? ==> |r.rest| < |s|
    decreases |s|, 2
  {
    match ParseValue(Skip(s), depth)
    case Failed => Failed
    case Numeral => Numeral
    case Done(v, rest) =>
      var t := Skip(rest);
      if t == [] then Failed
      else if t[0] == COMMA then
        match ParseItems(t[1..], depth)
        case Failed => Failed
        case Numeral => Numeral
        case Done(items, rest) => Done([v] + items, rest)
      else if t[0] == CLOSE then Done([v], t[1..])
      else Failed
  }

  /** `parse_object` */
  function ParseObject(s: seq<byte>, depth: nat): (r: Parsed<Json>)
    requires s != []
    ensures r.Done? ==> |r.rest| < |s|
    decreases |s|, 0
  {
    if depth >= NESTING_LIMIT then Failed
    else
      var t := Skip(s[1..]);
      if t == [] then Failed
      else if t[0] == END then Done(Obj([]), t[1..])
      else
        match ParseMembers(t, depth + 1)
        case Failed => Failed
        case Numeral => Numeral
        case Done(members, rest) => Done(Obj(members), rest)
  }

  /** The members from one on, up to the closing brace. */
  function ParseMembers(s: seq<byte>, depth: nat): (r: Parsed<seq<Member>>)
    ensures r.Done? ==> |r.rest| < |s|
    decreases |s|, 2
  {
    if s == [] then Failed
    else
      match ParseString(Skip(s))
      case None => Failed
      case Some((key, rest)) =>
        var t := Skip(rest);
        if t == [] || t[0] != COLON then Failed
        else
          match ParseValue(Skip(t[1..]), depth)
          case Failed => Failed
          case Numeral => Numeral
          case Done(v, rest) =>
            var u := Skip(rest);
            if u == [] then Failed
            else if u[0] == COMMA then
              match ParseMembers(u[1..], depth)
              case Failed => Failed
              case Numeral => Numeral
              case Done(members, rest) => Done([Member(key, v)] + members, rest)
            else if u[0] == END then Done([Member(key, v)], u[1..])
            else Failed
  }

  /** `skip_utf8_bom` on the text and its terminating NUL. */
  function SkipBom(s: seq<byte>): seq<byte> {
    if |s| > 4 && s[..3] == [0xEF, 0xBB, 0xBF] then s[3..] else s
  }

  /** `cJSON_Parse`; the buffer includes the terminating NUL. */
  function Parse(text: CString): Parsed<Json> {
    ParseValue(Skip(SkipBom(text + [0])), 0)
  }
}
