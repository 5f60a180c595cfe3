/** The two programs together. */
module JsonCodec {
  import opened Bytes
  import opened JsonStrings
  import opened Json
  import JsonRoundTrip
  import JsonParser
  import JsonPrinter

  /** The printer's loops followed by the parser's loops give the value back, for every
      value nested at most 1000 deep whose text fits the largest buffer; any other value
      is not printed. */
  method PrintAndParse(v: Json, format: bool) returns (r: Option<Json>)
    ensures r == if JsonPrinter.Fits([], Print(v, format, 0)) then Some(v) else None
    ensures r.Some? ==> JsonRoundTrip.Depth(v) <= NESTING_LIMIT
  {
    hide Print, Parse, JsonRoundTrip.Depth;
    JsonRoundTrip.PrintsIff(v, format, 0);
    var text := JsonPrinter.PrintText(v, format);
    if text.None? { return None; }
    JsonRoundTrip.RoundTrip(v, format);
    var p := JsonParser.ParseText(text.value);
    return Some(p.value);
  }
}
