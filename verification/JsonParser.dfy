/** The parser as the code runs it: one buffer, an offset that the functions move
    forward and back, a nesting counter, and loops over elements. */
module JsonParser {
  import opened Bytes
  import opened JsonStrings
  import opened Json
  import JsonStringCode

  datatype Outcome<T> = Got(value: T) | Bad | Other

  /** The outcome is the specified one; after a success the offset is at the rest. */
  ghost predicate Agrees<T>(p: Parsed<T>, r: Outcome<T>, rest: seq<byte>) {
    match p
    case Done(v, t) => r == Got(v) && rest == t
    case Failed => r.Bad?
    case Numeral => r.Other?
  }

  /** Elements read before the rest of a list. */
  ghost function Extend<T>(items: seq<T>, p: Parsed<seq<T>>): Parsed<seq<T>> {
    match p
    case Done(more, rest) => Done(items + more, rest)
    case _ => p
  }

  class Parser {
    const content: seq<byte>
    var offset: nat
    var depth: nat

    constructor (content: seq<byte>)
      ensures this.content == content && offset == 0 && depth == 0
    {
      this.content := content;
      offset, depth := 0, 0;
    }

    ghost function Rest(): seq<byte>
      requires offset <= |content|
      reads this
    {
      content[offset..]
    }

    /** `buffer_skip_whitespace` */
    method SkipWhitespace()
      requires offset <= |content|
      modifies this`offset
      ensures offset <= |content| && Rest() == Skip(old(Rest()))
    {
      ghost var s := Rest();
      if offset >= |content| { return; }
      while offset < |content| && content[offset] <= 32
        invariant old(offset) <= offset <= |content| && Trim(Rest()) == Trim(s)
      {
        assert Rest()[1..] == content[offset + 1..];
        offset := offset + 1;
      }
      if offset == |content| {
        assert Rest() == [] && Trim(s) == [];
        offset := offset - 1;
        assert Rest() == s[|s| - 1..];
      } else {
        assert Trim(Rest()) == Rest();
      }
    }

    predicate AtChar(c: byte)
      reads this
    {
      offset < |content| && content[offset] == c
    }

    /** `parse_string` at the offset. */
    method ReadString() returns (r: Option<CString>)
      requires offset < |content|
      modifies this`offset
      ensures offset <= |content|
      ensures match JsonStrings.ParseString(old(Rest()))
        case None => r.None?
        case Some((t, rest)) => r == Some(t) && old(offset) < offset <= |content| && Rest() == rest
    {
      hide JsonStrings.ParseString;
      var p := JsonStringCode.ReadString(content[offset..]);
      if p.None? { return None; }
      ParsedIsSuffix(Rest());
      offset := |content| - |p.value.1|;
      return Some(p.value.0);
    }

    /** `parse_number`: the run of number characters, then its value. */
    method ReadNumber() returns (r: Outcome<Json>)
      requires offset < |content| && NumberChar(content[offset])
      modifies this`offset
      ensures offset <= |content| && Agrees(ParseNumber(old(Rest())), r, Rest())
      ensures r.Got? ==> offset > old(offset)
    {
      hide Integer;
      ghost var s := Rest();
      var n := CountRun();
      assert content[offset..offset + n] == s[..n] && content[offset + n..] == s[n..];
      var v := Integer(content[offset..offset + n]);
      if v.None? || v.value < -0x8000_0000 || v.value >= 0x8000_0000 { return Other; }
      offset := offset + n;
      return Got(Number(v.value));
    }

    /** The counting loop of `parse_number`. */
    method CountRun() returns (n: nat)
      requires offset < |content|
      ensures n == Run(Rest()) && offset + n <= |content|
    {
      ghost var s := Rest();
      n := 0;
      while offset + n < |content| && NumberChar(content[offset + n])
        invariant offset + n <= |content| && Run(s) == n + Run(content[offset + n..])
      {
        assert content[offset + n..][1..] == content[offset + n + 1..];
        n := n + 1;
      }
    }

    /** The literal `text` at the offset. */
    predicate Ahead(text: seq<byte>)
      reads this
    {
      offset + |text| <= |content| && content[offset..offset + |text|] == text
    }

    lemma AheadIsPrefix(text: seq<byte>)
      requires offset <= |content|
      ensures Ahead(text) <==> text <= Rest()
      ensures Ahead(text) ==> content[offset + |text|..] == Rest()[|text|..]
    {
      if text <= Rest() {
        assert content[offset..offset + |text|] == Rest()[..|text|];
      }
      if Ahead(text) {
        assert Rest()[..|text|] == content[offset..offset + |text|];
      }
    }

    /** `parse_value` */
    method ReadValue() returns (r: Outcome<Json>)
      requires offset <= |content|
      modifies this
      ensures offset <= |content| && Agrees(ParseValue(old(Rest()), old(depth)), r, Rest())
      ensures r.Got? ==> offset > old(offset) && depth == old(depth)
      decreases |content| - offset, 2
    {
      hide ParseNumber, JsonStrings.ParseString, ParseArray, ParseObject;
      AheadIsPrefix(NULL_TEXT);
      AheadIsPrefix(FALSE_TEXT);
      AheadIsPrefix(TRUE_TEXT);
      if Ahead(NULL_TEXT) {
        offset := offset + 4;
        return Got(Null);
      }
      if Ahead(FALSE_TEXT) {
        offset := offset + 5;
        return Got(Bool(false));
      }
      if Ahead(TRUE_TEXT) {
        offset := offset + 4;
        return Got(Bool(true));
      }
      if offset == |content| { return Bad; }
      var c := content[offset];
      if c == QUOTE {
        var t := ReadString();
        if t.None? { return Bad; }
        return Got(Str(t.value));
      }
      if c == MINUS || 48 <= c <= 57 {
        r := ReadNumber();
      } else if c == OPEN {
        r := ReadArray();
      } else if c == BEGIN {
        r := ReadObject();
      } else {
        r := Bad;
      }
    }

    /** `parse_array`, with its step back in front of the first element. */
    method ReadArray() returns (r: Outcome<Json>)
      requires AtChar(OPEN)
      modifies this
      ensures offset <= |content| && Agrees(ParseArray(old(Rest()), old(depth)), r, Rest())
      ensures r.Got? ==> offset > old(offset) && depth == old(depth)
      decreases |content| - offset, 1
    {
      hide ParseItems, Skip;
      if depth >= NESTING_LIMIT { return Bad; }
      depth := depth + 1;
      assert Rest()[1..] == content[offset + 1..];
      offset := offset + 1;
      SkipWhitespace();
      if offset == |content| { return Bad; }
      if content[offset] == CLOSE {
        depth := depth - 1;
        assert Rest()[1..] == content[offset + 1..];
        offset := offset + 1;
        return Got(Arr([]));
      }
      offset := offset - 1;
      var items := ReadItems();
      match items {
        case Bad => return Bad;
        case Other => return Other;
        case Got(v) =>
          depth := depth - 1;
          return Got(Arr(v));
      }
    }

    /** A value with the whitespace around it. */
    method ReadItem() returns (r: Outcome<Json>)
      requires offset <= |content|
      modifies this
      ensures offset <= |content|
      ensures var p := ParseValue(Skip(old(Rest())), old(depth));
        if p.Done? then r == Got(p.value) && Rest() == Skip(p.rest) else Agrees(p, r, [])
      ensures r.Got? ==> depth == old(depth) && (offset > old(offset) || offset == |content|)
      decreases |content| - offset, 3
    {
      hide ParseValue, Skip;
      SkipWhitespace();
      r := ReadValue();
      if r.Got? { SkipWhitespace(); }
    }

    /** The loop of `parse_array`; the offset is in front of the first element. */
    method ReadItems() returns (r: Outcome<seq<Json>>)
      requires offset + 1 < |content|
      modifies this
      ensures offset <= |content| && Agrees(ParseItems(old(content[offset + 1..]), old(depth)), r, Rest())
      ensures r.Got? ==> offset > old(offset) + 1 && depth == old(depth)
      decreases |content| - offset, 0
    {
      hide ParseItems, ParseValue, Skip;
      ghost var s := content[offset + 1..];
      var items: seq<Json> := [];
      ExtendNone(ParseItems(s, depth));
      while true
        invariant old(offset) <= offset < |content| && depth == old(depth)
        invariant ParseItems(s, depth) == Extend(items, ParseItems(content[offset + 1..], depth))
        decreases |content| - offset
      {
        offset := offset + 1;
        ItemsTurn(Rest(), depth, ParseValue(Skip(Rest()), depth));
        var v := ReadItem();
        match v {
          case Bad => return Bad;
          case Other => return Other;
          case Got(x) =>
            if offset == |content| { return Bad; }
            assert Rest()[1..] == content[offset + 1..];
            ExtendMore(items, x, ParseItems(content[offset + 1..], depth));
            items := items + [x];
            if content[offset] == CLOSE {
              offset := offset + 1;
              return Got(items);
            }
            if content[offset] != COMMA { return Bad; }
        }
      }
    }

    /** `parse_object`, with its step back in front of the first member. */
    method ReadObject() returns (r: Outcome<Json>)
      requires AtChar(BEGIN)
      modifies this
      ensures offset <= |content| && Agrees(ParseObject(old(Rest()), old(depth)), r, Rest())
      ensures r.Got? ==> offset > old(offset) && depth == old(depth)
      decreases |content| - offset, 1
    {
      hide ParseMembers, Skip;
      if depth >= NESTING_LIMIT { return Bad; }
      depth := depth + 1;
      assert Rest()[1..] == content[offset + 1..];
      offset := offset + 1;
      SkipWhitespace();
      if offset == |content| { return Bad; }
      if content[offset] == END {
        depth := depth - 1;
        assert Rest()[1..] == content[offset + 1..];
        offset := offset + 1;
        return Got(Obj([]));
      }
      offset := offset - 1;
      var members := ReadMembers();
      match members {
        case Bad => return Bad;
        case Other => return Other;
        case Got(v) =>
          depth := depth - 1;
          return Got(Obj(v));
      }
    }

    /** A name, a colon and a value, with the whitespace around them. */
    method ReadMember() returns (r: Outcome<Member>)
      requires offset < |content|
      modifies this
      ensures offset <= |content|
      ensures var p := OneMember(old(Rest()), old(depth));
        if p.Done? then r == Got(p.value) && Rest() == Skip(p.rest) else Agrees(p, r, [])
      ensures r.Got? ==> depth == old(depth) && (offset > old(offset) || offset == |content|)
      decreases |content| - offset, 3
    {
      hide ParseValue, Skip, JsonStrings.ParseString;
      SkipWhitespace();
      var key := ReadString();
      if key.None? { return Bad; }
      SkipWhitespace();
      if !AtChar(COLON) { return Bad; }
      assert Rest()[1..] == content[offset + 1..];
      offset := offset + 1;
      var v := ReadItem();
      match v {
        case Bad => return Bad;
        case Other => return Other;
        case Got(x) => return Got(Member(key.value, x));
      }
    }

    /** The loop of `parse_object`; the offset is in front of the first member. */
    method ReadMembers() returns (r: Outcome<seq<Member>>)
      requires offset + 1 < |content|
      modifies this
      ensures offset <= |content| && Agrees(ParseMembers(old(content[offset + 1..]), old(depth)), r, Rest())
      ensures r.Got? ==> offset > old(offset) + 1 && depth == old(depth)
      decreases |content| - offset, 0
    {
      hide ParseMembers, OneMember, Skip;
      ghost var s := content[offset + 1..];
      var members: seq<Member> := [];
      ExtendNone(ParseMembers(s, depth));
      while true
        invariant old(offset) <= offset < |content| && depth == old(depth)
        invariant ParseMembers(s, depth) == Extend(members, ParseMembers(content[offset + 1..], depth))
        decreases |content| - offset
      {
        MembersTurn(content[offset + 1..], depth, OneMember(content[offset + 1..], depth));
        if offset + 1 >= |content| { return Bad; }
        offset := offset + 1;
        var v := ReadMember();
        match v {
          case Bad => return Bad;
          case Other => return Other;
          case Got(x) =>
            if offset == |content| { return Bad; }
            assert Rest()[1..] == content[offset + 1..];
            ExtendMore(members, x, ParseMembers(content[offset + 1..], depth));
            members := members + [x];
            if content[offset] == END {
              offset := offset + 1;
              return Got(members);
            }
            if content[offset] != COMMA { return Bad; }
        }
      }
    }
  }

  /** The first member of a list. */
  ghost function OneMember(s: seq<byte>, depth: nat): Parsed<Member> {
    if s == [] then Failed
    else
      match JsonStrings.ParseString(Skip(s))
      case None => Failed
      case Some((key, rest)) =>
        var t := Skip(rest);
        if t == [] || t[0] != COLON then Failed
        else
          match ParseValue(Skip(t[1..]), depth)
          case Failed => Failed
          case Numeral => Numeral
          case Done(v, more) => Done(Member(key, v), more)
  }

  /** One turn of the member loop. */
  lemma MembersTurn(s: seq<byte>, depth: nat, p: Parsed<Member>)
    requires p == OneMember(s, depth)
    ensures s == [] ==> p.Failed?
    ensures p.Failed? ==> ParseMembers(s, depth).Failed?
    ensures p.Numeral? ==> ParseMembers(s, depth).Numeral?
    ensures p.Done? && (Skip(p.rest) == [] || (Skip(p.rest)[0] != COMMA && Skip(p.rest)[0] != END)) ==>
      ParseMembers(s, depth).Failed?
    ensures p.Done? && Skip(p.rest) != [] && Skip(p.rest)[0] == COMMA ==>
      ParseMembers(s, depth) == Extend([p.value], ParseMembers(Skip(p.rest)[1..], depth))
    ensures p.Done? && Skip(p.rest) != [] && Skip(p.rest)[0] == END ==>
      ParseMembers(s, depth) == Done([p.value], Skip(p.rest)[1..])
  {
    hide ParseValue, Skip, JsonStrings.ParseString;
  }

  lemma ExtendNone<T>(p: Parsed<seq<T>>)
    ensures p == Extend([], p)
  {
    if p.Done? { assert [] + p.value == p.value; }
  }

  lemma ExtendMore<T>(items: seq<T>, x: T, p: Parsed<seq<T>>)
    ensures Extend(items, Extend([x], p)) == Extend(items + [x], p)
    ensures Extend(items, Done([x], [])).value == items + [x]
  {
    if p.Done? { assert items + ([x] + p.value) == (items + [x]) + p.value; }
  }

  /** One turn of the element loop. */
  lemma ItemsTurn(s: seq<byte>, depth: nat, p: Parsed<Json>)
    requires p == ParseValue(Skip(s), depth)
    ensures p.Failed? ==> ParseItems(s, depth).Failed?
    ensures p.Numeral? ==> ParseItems(s, depth).Numeral?
    ensures p.Done? && (Skip(p.rest) == [] || (Skip(p.rest)[0] != COMMA && Skip(p.rest)[0] != CLOSE)) ==>
      ParseItems(s, depth).Failed?
    ensures p.Done? && Skip(p.rest) != [] && Skip(p.rest)[0] == COMMA ==>
      ParseItems(s, depth) == Extend([p.value], ParseItems(Skip(p.rest)[1..], depth))
    ensures p.Done? && Skip(p.rest) != [] && Skip(p.rest)[0] == CLOSE ==>
      ParseItems(s, depth) == Done([p.value], Skip(p.rest)[1..])
  {
    hide ParseValue, Skip;
  }

  /** What follows a literal is the end of the input. */
  lemma ParsedIsSuffix(s: seq<byte>)
    ensures match JsonStrings.ParseString(s)
      case None => true
      case Some((t, rest)) => |rest| < |s| && rest == s[|s| - |rest|..]
  {
    hide EndOf, Decode;
  }

  /** `cJSON_Parse` on a text and its terminating NUL. */
  method ParseText(text: CString) returns (r: Outcome<Json>)
    ensures var p := Parse(text); if p.Done? then r == Got(p.value) else Agrees(p, r, [])
  {
    hide ParseValue, Skip;
    var p := new Parser(text + [0]);
    if |p.content| > 4 && p.content[..3] == [0xEF, 0xBB, 0xBF] { p.offset := 3; }
    assert p.Rest() == SkipBom(text + [0]);
    p.SkipWhitespace();
    r := p.ReadValue();
  }
}
