/**
 * Policy equivalence: the remote backend hands back policy documents
 * percent-encoded (section 2.1 of RFC 3986); `areEqualPolicy` decodes them
 * the way Go's `url.QueryUnescape` does (which also turns `+` into a space)
 * and then compares both documents as parsed JSON values, so that encoding,
 * whitespace and key order do not matter.
 */
module PolicyCompare {
  import opened Wrappers

  /** Go strings are byte strings; policy documents are kept as bytes. */
  type Byte = b: int | 0 <= b < 256
  type Doc = seq<Byte>

  const Percent: Byte := 37  // '%'
  const Plus: Byte := 43     // '+'
  const Space: Byte := 32    // ' '

  datatype CompareError =
    | EscapeError(escape: Doc)   // a '%' not followed by two hex digits
    | SyntaxError(text: Doc)     // a document that is not JSON

  predicate IsHex(b: Byte)
  {
    (48 <= b <= 57) || (65 <= b <= 70) || (97 <= b <= 102)
  }

  function UnHex(b: Byte): (v: nat)
    requires IsHex(b)
    ensures v < 16
  {
    if b <= 57 then b - 48 else if b <= 70 then b - 55 else b - 87
  }

  /**
   * `url.QueryUnescape`: `%XY` becomes the byte with hex value XY, `+`
   * becomes a space, every other byte stays; the leftmost malformed escape
   * (at most three bytes of it) is reported.
   */
  function QueryUnescape(s: Doc): (r: Result<Doc, CompareError>)
    ensures r.Ok? ==> |r.value| <= |s|
    decreases |s|
  {
    if s == [] then Ok([])
    else if s[0] == Percent then
      if |s| < 3 || !IsHex(s[1]) || !IsHex(s[2]) then
        Err(EscapeError(if |s| < 3 then s else s[..3]))
      else
        match QueryUnescape(s[3..])
        case Ok(rest) => Ok([UnHex(s[1]) * 16 + UnHex(s[2])] + rest)
        case Err(e) => Err(e)
    else
      match QueryUnescape(s[1..])
      case Ok(rest) => Ok([if s[0] == Plus then Space else s[0]] + rest)
      case Err(e) => Err(e)
  }

  /** Unreserved characters of section 2.3 of RFC 3986: ALPHA / DIGIT / "-" / "." / "_" / "~". */
  predicate IsUnreserved(b: Byte)
  {
    (48 <= b <= 57) || (65 <= b <= 90) || (97 <= b <= 122) || b == 45 || b == 46 || b == 95 || b == 126
  }

  function HexDigit(v: nat): (b: Byte)
    requires v < 16
    ensures IsHex(b) && UnHex(b) == v
  {
    if v < 10 then 48 + v else 55 + v
  }

  /** Percent-encoding of section 2.1 of RFC 3986, as the backend applies it. */
  function PercentEncode(d: Doc): (r: Doc)
    ensures |r| >= |d|
  {
    if d == [] then []
    else
      (if IsUnreserved(d[0]) then [d[0]] else [Percent, HexDigit(d[0] / 16), HexDigit(d[0] % 16)])
      + PercentEncode(d[1..])
  }

  /** Decoding undoes the backend's encoding. */
  lemma {:induction false} UnescapeEncode(d: Doc)
    ensures QueryUnescape(PercentEncode(d)) == Ok(d)
  {
    if d != [] {
      UnescapeEncode(d[1..]);
      var e := PercentEncode(d);
      if IsUnreserved(d[0]) {
        assert e[1..] == PercentEncode(d[1..]);
      } else {
        assert e[3..] == PercentEncode(d[1..]);
      }
      assert [d[0]] + d[1..] == d;
    }
  }

  /** A document without `%` and `+` decodes to itself. */
  lemma {:induction false} UnescapePlain(d: Doc)
    requires forall i :: 0 <= i < |d| ==> d[i] != Percent && d[i] != Plus
    ensures QueryUnescape(d) == Ok(d)
  {
    if d != [] {
      UnescapePlain(d[1..]);
      assert [d[0]] + d[1..] == d;
    }
  }

  /** A literal `+` in the encoded form comes back as a space, not as `+`. */
  lemma PlusDecodesToSpace()
    ensures QueryUnescape([Plus]) == Ok([Space])
  {
    var s: Doc := [Plus];
    assert s[0] != Percent;
    assert s[1..] == [];
    assert QueryUnescape(s[1..]) == Ok([]);
    var sp: Doc := [Space];
    assert QueryUnescape(s).Ok?;
    assert QueryUnescape(s).value[0] == Space;
    assert QueryUnescape(s).value == sp;
  }

  /** Generic JSON value (RFC 8259) as Go's `json.Unmarshal` into `any` yields it. */
  datatype Json =
    | JNull
    | JBool(b: bool)
    | JNumber(n: real)
    | JString(s: string)
    | JArray(items: seq<Json>)
    | JObject(members: map<string, Json>)

  /** The JSON parser is not modelled: it is a partial function supplied from outside. */
  type JsonParser = Doc -> Option<Json>

  /** `areEqualJSON`: parse both, then compare the values structurally. */
  function AreEqualJSON(s1: Doc, s2: Doc, parse: JsonParser): (r: Result<bool, CompareError>)
    ensures r.Err? <==> parse(s1).None? || parse(s2).None?
    ensures r.Ok? ==> (r.value <==> parse(s1) == parse(s2))
  {
    match parse(s1)
    case None => Err(SyntaxError(s1))
    case Some(o1) =>
      match parse(s2)
      case None => Err(SyntaxError(s2))
      case Some(o2) => Ok(o1 == o2)
  }

  /** `areEqualPolicy`: decode the remote document, then compare as JSON. */
  function AreEqualPolicy(encoded: Doc, expected: Doc, parse: JsonParser): (r: Result<bool, CompareError>)
    ensures r.Err? <==>
      QueryUnescape(encoded).Err?
      || parse(QueryUnescape(encoded).value).None?
      || parse(expected).None?
    ensures r.Ok? ==> (r.value <==> parse(QueryUnescape(encoded).value) == parse(expected))
  {
    match QueryUnescape(encoded)
    case Err(e) => Err(e)
    case Ok(decoded) => AreEqualJSON(decoded, expected, parse)
  }

  /** Comparing JSON is symmetric and reflexive on parseable documents. */
  lemma AreEqualJSONSymmetric(s1: Doc, s2: Doc, parse: JsonParser)
    ensures AreEqualJSON(s1, s2, parse).Ok? <==> AreEqualJSON(s2, s1, parse).Ok?
    ensures AreEqualJSON(s1, s2, parse).Ok? ==>
      AreEqualJSON(s1, s2, parse).value == AreEqualJSON(s2, s1, parse).value
    ensures parse(s1).Some? ==> AreEqualJSON(s1, s1, parse) == Ok(true)
  {
  }

  /**
   * A document that went through the backend unchanged compares equal to
   * itself: the round trip through percent-encoding is absorbed.
   */
  lemma AreEqualPolicyAfterRoundTrip(stored: Doc, expected: Doc, parse: JsonParser)
    requires parse(stored).Some? && parse(expected).Some?
    ensures AreEqualPolicy(PercentEncode(stored), expected, parse) == Ok(parse(stored) == parse(expected))
  {
    UnescapeEncode(stored);
  }
}
