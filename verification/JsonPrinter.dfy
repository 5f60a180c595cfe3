/** The printer as the code runs it: a growing buffer with an offset that some
    functions move themselves and others leave to `update_offset`, which looks for
    the terminating NUL. `text` is the buffer up to the offset and `tail` the C string
    that follows it. */
module JsonPrinter {
  import opened Bytes
  import opened JsonStrings
  import opened Json
  import opened JsonRoundTrip
  import JsonStringCode

  const INT_MAX: nat := 0x7FFF_FFFF
  const FIRST_SIZE: nat := 256

  /** What printing `r` behind `base` needs: a text, and room for it. */
  ghost predicate Fits(base: seq<byte>, r: Option<seq<byte>>) {
    r.Some? && |base| + |r.value| + 2 <= INT_MAX
  }

  /** The text of an object, in the pieces `print_object` writes. */
  lemma ObjectText(members: seq<Member>, fmt: bool, depth: nat)
    ensures Print(Obj(members), fmt, depth) ==
      if depth >= NESTING_LIMIT || PrintMembers(members, fmt, depth + 1).None? then None
      else Some((if fmt then [BEGIN, NEWLINE] else [BEGIN]) + PrintMembers(members, fmt, depth + 1).value
                + ((if fmt then Tabs(depth) else []) + [END]))
  {
    hide PrintMembers, Tabs;
    if depth < NESTING_LIMIT && PrintMembers(members, fmt, depth + 1).Some? {
      var nl, w, m := if fmt then [NEWLINE] else [], if fmt then Tabs(depth) else [], PrintMembers(members, fmt, depth + 1).value;
      assert [BEGIN] + nl == if fmt then [BEGIN, NEWLINE] else [BEGIN];
      assert [BEGIN] + nl + m + w + [END] == ([BEGIN] + nl) + m + (w + [END]);
    }
  }

  class Printer {
    const format: bool
    var text: seq<byte>
    var tail: CString
    var length: nat          // the size of the buffer
    var depth: nat

    constructor (format: bool)
      ensures this.format == format && text == [] && depth == 0 && Valid()
    {
      this.format := format;
      text, tail, length, depth := [], [], FIRST_SIZE, 0;
    }

    /** What was written, and its NUL, is inside the buffer. */
    ghost predicate Valid()
      reads this
    {
      |text| + |tail| < length <= INT_MAX
    }

    /** `ensure`: room for `needed` octets and a NUL behind the offset. */
    method Ensure(needed: nat) returns (ok: bool)
      requires Valid()
      modifies this`length
      ensures Valid() && (ok <==> needed + |text| + 1 <= INT_MAX)
      ensures ok ==> needed + |text| + 1 <= length
      ensures length == old(length) || length == INT_MAX || length == 2 * (needed + |text| + 1)
    {
      if needed > INT_MAX { return false; }
      var total := needed + |text| + 1;
      if total <= length { return true; }
      if total > INT_MAX / 2 {
        if total > INT_MAX { return false; }
        length := INT_MAX;
      } else {
        length := 2 * total;
      }
      return true;
    }

    /** `update_offset`: the offset moves to the NUL. */
    method UpdateOffset()
      requires Valid()
      modifies this`text, this`tail
      ensures Valid() && text == old(text) + old(tail) && tail == []
    {
      text, tail := text + tail, [];
    }

    /** Writes a C string at the offset, without moving it. */
    method Put(s: CString, needed: nat) returns (ok: bool)
      requires Valid() && needed >= |s|
      modifies this`length, this`tail
      ensures Valid() && (ok <==> needed + |text| + 1 <= INT_MAX) && (ok ==> tail == s)
    {
      ok := Ensure(needed);
      if ok { tail := s; }
    }

    /** Writes octets at the offset and moves it behind them. */
    method Add(s: CString, needed: nat) returns (ok: bool)
      requires Valid() && needed >= |s|
      modifies this`length, this`tail, this`text
      ensures Valid() && (ok <==> needed + |old(text)| + 1 <= INT_MAX)
      ensures if ok then text == old(text) + s && tail == [] else text == old(text)
    {
      ok := Ensure(needed);
      if ok { text, tail := text + s, []; }
    }

    /** The state after a successful print of `r`. */
    ghost predicate Printed(base: seq<byte>, r: Option<seq<byte>>)
      reads this
    {
      r.Some? && base <= text && text + tail == base + r.value
    }

    /** `print_value`: succeeds exactly when the value is not nested too deep and its
        text fits the largest buffer, and then the text is there. */
    method PrintValue(v: Json) returns (ok: bool)
      requires Valid()
      modifies this`length, this`tail, this`text, this`depth
      ensures Valid() && (ok <==> Fits(old(text), Print(v, format, old(depth))))
      ensures ok ==> Printed(old(text), Print(v, format, old(depth))) && depth == old(depth)
      decreases v, 2
    {
      hide Quoted, Decimal, PrintItems, PrintMembers;
      match v
      case Null => ok := Put(NULL_TEXT, 5);
      case Bool(b) =>
        if b { ok := Put(TRUE_TEXT, 5); } else { ok := Put(FALSE_TEXT, 6); }
      case Number(n) =>
        DecimalNoNul(n);
        ok := Add(Decimal(n), |Decimal(n)| + 1);
      case Str(s) => ok := PrintString(s);
      case Arr(items) => ok := PrintArray(items);
      case Obj(members) => ok := PrintObject(members);
    }

    /** `print_string` */
    method PrintString(s: CString) returns (ok: bool)
      requires Valid()
      modifies this`length, this`tail
      ensures Valid() && (ok <==> |text| + |Quoted(s)| + 2 <= INT_MAX) && (ok ==> tail == Quoted(s))
    {
      hide Quoted;
      QuotedNoNul(s);
      var out := JsonStringCode.PrintString(s);
      assert out[..out.Length - 1] == Quoted(s);
      ok := Put(out[..out.Length - 1], out.Length);
    }

    /** `print_array` */
    method PrintArray(items: seq<Json>) returns (ok: bool)
      requires Valid()
      modifies this`length, this`tail, this`text, this`depth
      ensures Valid() && (ok <==> Fits(old(text), Print(Arr(items), format, old(depth))))
      ensures ok ==> Printed(old(text), Print(Arr(items), format, old(depth))) && depth == old(depth)
      decreases items, 1
    {
      hide PrintItems;
      if depth >= NESTING_LIMIT { return false; }
      ok := Add([OPEN], 1);
      if !ok { return; }
      depth := depth + 1;
      ok := PrintElements(items);
      if !ok { return; }
      ok := Put([CLOSE], 2);
      if !ok { return; }
      depth := depth - 1;
    }

    /** The loop of `print_array`. */
    method PrintElements(items: seq<Json>) returns (ok: bool)
      requires Valid()
      modifies this`length, this`tail, this`text, this`depth
      ensures Valid()
      ensures ok <==> PrintItems(items, format, old(depth)).Some?
                      && (items == [] || Fits(old(text), PrintItems(items, format, old(depth))))
      ensures ok ==> text == old(text) + PrintItems(items, format, old(depth)).value && depth == old(depth)
      decreases items, 0
    {
      hide Print, PrintItems;
      ghost var whole := PrintItems(items, format, depth);
      assert items[0..] == items;
      var i := 0;
      while i < |items|
        invariant 0 <= i <= |items| && Valid() && depth == old(depth) && old(text) <= text
        invariant Continues(old(text), whole, text, PrintItems(items[i..], format, depth))
        invariant i > 0 ==> |text| + 2 <= INT_MAX
      {
        ItemsUnfold(items, i, format, depth);
        ghost var x := text;
        ok := PrintValue(items[i]);
        if !ok { return; }
        UpdateOffset();
        if i + 1 < |items| {
          var comma := if format then [COMMA, SPACE] else [COMMA];
          ok := Add(comma, |comma| + 1);
          if !ok { return; }
        }
        i := i + 1;
      }
      ItemsNone(items, format, depth);
      return true;
    }

    /** `print_object` */
    method PrintObject(members: seq<Member>) returns (ok: bool)
      requires Valid()
      modifies this`length, this`tail, this`text, this`depth
      ensures Valid() && (ok <==> Fits(old(text), Print(Obj(members), format, old(depth))))
      ensures ok ==> Printed(old(text), Print(Obj(members), format, old(depth))) && depth == old(depth)
      decreases members, 1
    {
      hide Print, PrintMembers, Tabs;
      ObjectText(members, format, depth);
      if depth >= NESTING_LIMIT { return false; }
      var open := if format then [BEGIN, NEWLINE] else [BEGIN];
      ok := Add(open, |open| + 1);
      if !ok { return; }
      depth := depth + 1;
      ok := PrintLines(members);
      if !ok { return; }
      var end := (if format then Tabs(depth - 1) else []) + [END];
      ok := Put(end, |end| + 1);
      if !ok { return; }
      depth := depth - 1;
    }

    /** Indentation, name and colon of a member. */
    method PrintKey(key: CString) returns (ok: bool)
      requires Valid()
      modifies this`length, this`tail, this`text
      ensures Valid() && (ok <==> |old(text)| + |KeyText(key, format, depth)| + 1 <= INT_MAX)
      ensures ok ==> text == old(text) + KeyText(key, format, depth)
    {
      hide Quoted, Tabs;
      if format {
        ok := Add(Tabs(depth), depth);
        if !ok { return; }
      }
      ok := PrintString(key);
      if !ok { return; }
      UpdateOffset();
      var colon := if format then [COLON, TAB] else [COLON];
      ok := Add(colon, |colon|);
    }

    /** The body of the loop of `print_object`. */
    method PrintLine(m: Member, more: bool) returns (ok: bool)
      requires Valid()
      modifies this`length, this`tail, this`text, this`depth
      ensures Valid() && (ok <==> Fits(old(text), Line(m, more, format, old(depth))))
      ensures ok ==> text == old(text) + Line(m, more, format, old(depth)).value && depth == old(depth)
      decreases m, 3
    {
      hide Print, KeyText;
      ok := PrintKey(m.key);
      if !ok { return; }
      ok := PrintValue(m.value);
      if !ok { return; }
      UpdateOffset();
      var end := LineEnd(more, format);
      ok := Add(end, |end| + 1);
    }

    /** The loop of `print_object`. */
    method PrintLines(members: seq<Member>) returns (ok: bool)
      requires Valid()
      modifies this`length, this`tail, this`text, this`depth
      ensures Valid()
      ensures ok <==> PrintMembers(members, format, old(depth)).Some?
                      && (members == [] || Fits(old(text), PrintMembers(members, format, old(depth))))
      ensures ok ==> text == old(text) + PrintMembers(members, format, old(depth)).value && depth == old(depth)
      decreases members, 0
    {
      hide Line, PrintMembers;
      ghost var whole := PrintMembers(members, format, depth);
      assert members[0..] == members;
      var i := 0;
      while i < |members|
        invariant 0 <= i <= |members| && Valid() && depth == old(depth) && old(text) <= text
        invariant Continues(old(text), whole, text, PrintMembers(members[i..], format, depth))
        invariant i > 0 ==> |text| + 2 <= INT_MAX
      {
        MembersUnfold(members, i, format, depth);
        ok := PrintLine(members[i], i + 1 < |members|);
        if !ok { return; }
        i := i + 1;
      }
      MembersNone(members, format, depth);
      return true;
    }
  }

  /** Printing `rest` behind `text` completes printing `whole` behind `base`. */
  ghost predicate Continues(base: seq<byte>, whole: Option<seq<byte>>, text: seq<byte>, rest: Option<seq<byte>>) {
    && (whole.Some? <==> rest.Some?)
    && (rest.Some? ==> text + rest.value == base + whole.value)
  }

  function Separator(more: bool, fmt: bool): seq<byte> {
    if !more then [] else if fmt then [COMMA, SPACE] else [COMMA]
  }

  lemma ItemsUnfold(items: seq<Json>, i: nat, fmt: bool, depth: nat)
    requires i < |items|
    ensures var head, tail := Print(items[i], fmt, depth), PrintItems(items[i + 1..], fmt, depth);
      PrintItems(items[i..], fmt, depth) ==
        if head.None? || tail.None? then None
        else Some(head.value + Separator(i + 1 < |items|, fmt) + tail.value)
    ensures i + 1 < |items| && PrintItems(items[i + 1..], fmt, depth).Some? ==>
      |PrintItems(items[i + 1..], fmt, depth).value| > 0
  {
    hide Print;
    assert items[i..][1..] == items[i + 1..];
  }

  lemma ItemsNone(items: seq<Json>, fmt: bool, depth: nat)
    ensures PrintItems(items[|items|..], fmt, depth) == Some([])
  {
  }

  ghost function KeyText(key: CString, fmt: bool, depth: nat): seq<byte> {
    (if fmt then Tabs(depth) else []) + Quoted(key) + (if fmt then [COLON, TAB] else [COLON])
  }

  function LineEnd(more: bool, fmt: bool): (e: CString) {
    (if more then [COMMA] else []) + (if fmt then [NEWLINE] else [])
  }

  /** One member with what the loop writes around it. */
  ghost function Line(m: Member, more: bool, fmt: bool, depth: nat): Option<seq<byte>> {
    var head := Print(m.value, fmt, depth);
    if head.None? then None else Some(KeyText(m.key, fmt, depth) + head.value + LineEnd(more, fmt))
  }

  lemma MembersUnfold(members: seq<Member>, i: nat, fmt: bool, depth: nat)
    requires i < |members|
    ensures var head := Line(members[i], i + 1 < |members|, fmt, depth);
      var tail := PrintMembers(members[i + 1..], fmt, depth);
      PrintMembers(members[i..], fmt, depth) ==
        if head.None? || tail.None? then None else Some(head.value + tail.value)
  {
    hide Print, Quoted, Tabs;
    var ms := members[i..];
    assert ms[1..] == members[i + 1..];
    var head, tail := Print(ms[0].value, fmt, depth), PrintMembers(ms[1..], fmt, depth);
    if head.Some? && tail.Some? {
      var k := (if fmt then Tabs(depth) else []) + Quoted(ms[0].key) + (if fmt then [COLON, TAB] else [COLON]) + head.value;
      var comma: seq<byte> := if |ms| == 1 then [] else [COMMA];
      var nl: seq<byte> := if fmt then [NEWLINE] else [];
      assert k + comma + nl + tail.value == k + (comma + nl) + tail.value;
    }
  }

  lemma MembersNone(members: seq<Member>, fmt: bool, depth: nat)
    ensures PrintMembers(members[|members|..], fmt, depth) == Some([])
  {
  }

  lemma DecimalNoNul(n: int)
    ensures 0 !in Decimal(n)
  {
  }

  lemma QuotedNoNul(s: CString)
    ensures 0 !in Quoted(s)
  {
    hide EscapeAll;
    EscapeAllNoNul(s);
  }

  /** `cJSON_Print` and `cJSON_PrintUnformatted` */
  method PrintText(v: Json, format: bool) returns (r: Option<seq<byte>>)
    ensures r == if Fits([], Print(v, format, 0)) then Print(v, format, 0) else None
  {
    hide Print;
    var p := new Printer(format);
    var ok := p.PrintValue(v);
    if !ok { return None; }
    p.UpdateOffset();
    assert [] + Print(v, format, 0).value == Print(v, format, 0).value;
    return Some(p.text);
  }
}
