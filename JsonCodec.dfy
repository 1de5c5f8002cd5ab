/** `json_decode($text, true)` and `json_encode` of a list of integers (RFC 8259).
    The decoder accepts the JSON grammar of RFC 8259 with integer numbers only:
    a number with a fraction or an exponent, and a `\u` escape, make the decode
    fail, as does any text that is not JSON. */
module JsonCodec {
  import opened Wrappers
  import opened PhpJson
  import Text

  /** Insignificant whitespace of RFC 8259 section 2. */
  predicate IsWs(c: char) { c == ' ' || c == '\t' || c == '\n' || c == '\r' }

  function SkipWs(s: string): (r: string)
    ensures |r| <= |s|
    ensures s != [] && !IsWs(s[0]) ==> r == s
  {
    if s != [] && IsWs(s[0]) then SkipWs(s[1..]) else s
  }

  function StartsWith(s: string, lit: string): bool {
    |lit| <= |s| && s[..|lit|] == lit
  }

  /** The character a two-character escape `\c` stands for. */
  function Unescape(c: char): Option<char> {
    match c
    case '"' => Some('"')
    case '\\' => Some('\\')
    case '/' => Some('/')
    case 'b' => Some(8 as char)
    case 'f' => Some(12 as char)
    case 'n' => Some('\n')
    case 'r' => Some('\r')
    case 't' => Some('\t')
    case _ => None
  }

  /** The rest of a string literal after its opening quote: the characters up to
      the closing quote, and the text after it. */
  function ParseStringBody(s: string): (r: Option<(string, string)>)
    ensures r.Some? ==> |r.value.1| < |s|
  {
    if s == [] then None
    else if s[0] == '"' then Some(([], s[1..]))
    else if s[0] < ' ' then None
    else if s[0] == '\\' then
      if |s| < 2 then None
      else match Unescape(s[1])
        case None => None
        case Some(c) =>
          match ParseStringBody(s[2..])
          case None => None
          case Some((t, rest)) => Some(([c] + t, rest))
    else
      match ParseStringBody(s[1..])
      case None => None
      case Some((t, rest)) => Some(([s[0]] + t, rest))
  }

  /** A digit run that is `0` or does not start with `0`, and is not followed
      by a fraction or an exponent; its value and the text after it. */
  function ParseUnsigned(s: string): (r: Option<(nat, string)>)
    ensures r.Some? ==> |r.value.1| < |s|
  {
    if s == [] || !Text.IsDigit(s[0]) then None
    else
      var k := if s[0] == '0' then 1 else Text.LeadingDigits(s);
      var rest := s[k..];
      if rest != [] && (rest[0] == '.' || rest[0] == 'e' || rest[0] == 'E') then None
      else Some((Text.DigitsValue(s[..k]), rest))
  }

  /** An integer: an optional minus, then an unsigned digit run. */
  function ParseNumber(s: string): (r: Option<(Json, string)>)
    requires s != [] && (s[0] == '-' || Text.IsDigit(s[0]))
    ensures r.Some? ==> |r.value.1| < |s|
  {
    var neg := s[0] == '-';
    match ParseUnsigned(if neg then s[1..] else s)
    case None => None
    case Some((v, rest)) => Some((JNum(if neg then -(v as int) else v), rest))
  }

  /** One JSON value at the start of `s` (after whitespace) and the text after it. */
  function ParseValue(s: string): (r: Option<(Json, string)>)
    ensures r.Some? ==> |r.value.1| < |s|
    decreases |s|, 0
  {
    var t := SkipWs(s);
    if t == [] then None
    else if t[0] == '[' then
      var u := SkipWs(t[1..]);
      if u != [] && u[0] == ']' then Some((JArr([]), u[1..]))
      else ParseElements(t[1..], [])
    else if t[0] == '{' then
      var u := SkipWs(t[1..]);
      if u != [] && u[0] == '}' then Some((JObj(map[]), u[1..]))
      else ParseMembers(t[1..], map[])
    else if t[0] == '"' then
      match ParseStringBody(t[1..])
      case None => None
      case Some((str, rest)) => Some((JStr(str), rest))
    else if t[0] == '-' || Text.IsDigit(t[0]) then ParseNumber(t)
    else if StartsWith(t, "null") then Some((JNull, t[4..]))
    else if StartsWith(t, "true") then Some((JBool(true), t[4..]))
    else if StartsWith(t, "false") then Some((JBool(false), t[5..]))
    else None
  }

  /** The elements of a non-empty array after `[`, appended to `acc`, up to and
      including the closing `]`. */
  function ParseElements(s: string, acc: seq<Json>): (r: Option<(Json, string)>)
    ensures r.Some? ==> |r.value.1| < |s|
    decreases |s|, 1
  {
    match ParseValue(s)
    case None => None
    case Some((v, rest)) =>
      var u := SkipWs(rest);
      if u != [] && u[0] == ']' then Some((JArr(acc + [v]), u[1..]))
      else if u != [] && u[0] == ',' then ParseElements(u[1..], acc + [v])
      else None
  }

  /** The members of a non-empty object after `{`, added to `acc` (a later
      duplicate key replaces an earlier one), up to and including the `}`. */
  function ParseMembers(s: string, acc: map<string, Json>): (r: Option<(Json, string)>)
    ensures r.Some? ==> |r.value.1| < |s|
    decreases |s|, 1
  {
    var t := SkipWs(s);
    if t == [] || t[0] != '"' then None
    else match ParseStringBody(t[1..])
      case None => None
      case Some((key, rest)) =>
        var u := SkipWs(rest);
        if u == [] || u[0] != ':' then None
        else match ParseValue(u[1..])
          case None => None
          case Some((v, rest2)) =>
            var w := SkipWs(rest2);
            if w != [] && w[0] == '}' then Some((JObj(acc[key := v]), w[1..]))
            else if w != [] && w[0] == ',' then ParseMembers(w[1..], acc[key := v])
            else None
  }

  /** `json_decode($text, true)`: `None` where PHP reports a syntax error. */
  function Decode(text: string): Option<Json> {
    match ParseValue(text)
    case None => None
    case Some((v, rest)) => if SkipWs(rest) == [] then Some(v) else None
  }

  /** The elements of a JSON integer list, comma-separated, without brackets. */
  function JoinInts(xs: seq<int>): string {
    if xs == [] then ""
    else if |xs| == 1 then Text.IntToString(xs[0])
    else Text.IntToString(xs[0]) + ("," + JoinInts(xs[1..]))
  }

  /** `json_encode` of a PHP list of integers: `[2,5]`, and `[]` when empty. */
  function EncodeIntList(xs: seq<int>): (text: string)
    ensures |text| >= 2 && text[0] == '[' && text[|text| - 1] == ']'
    ensures xs == [] ==> text == "[]"
  {
    "[" + (JoinInts(xs) + "]")
  }

  lemma ParseUnsignedOfNat(m: nat, rest: string)
    requires rest == [] || !(Text.IsDigit(rest[0]) || rest[0] == '.' || rest[0] == 'e' || rest[0] == 'E')
    ensures ParseUnsigned(Text.NatToString(m) + rest) == Some((m, rest))
  {
    var d := Text.NatToString(m);
    Text.NatToStringDigits(m);
    var s := d + rest;
    assert s[0] == d[0];
    Text.LeadingDigitsOfDigitsThen(d, rest);
    assert s[..|d|] == d && s[|d|..] == rest;
    Text.DigitsValueOfNatToString(m);
  }

  lemma ParseNumberOfNegative(m: nat, rest: string)
    requires rest == [] || !(Text.IsDigit(rest[0]) || rest[0] == '.' || rest[0] == 'e' || rest[0] == 'E')
    ensures ParseNumber("-" + (Text.NatToString(m) + rest)) == Some((JNum(-(m as int)), rest))
  {
    assert ("-" + (Text.NatToString(m) + rest))[1..] == Text.NatToString(m) + rest;
    ParseUnsignedOfNat(m, rest);
  }

  lemma ParseNumberOfNatural(m: nat, rest: string)
    requires Text.IsDigit(Text.NatToString(m)[0])
    requires rest == [] || !(Text.IsDigit(rest[0]) || rest[0] == '.' || rest[0] == 'e' || rest[0] == 'E')
    ensures ParseNumber(Text.NatToString(m) + rest) == Some((JNum(m), rest))
  {
    assert (Text.NatToString(m) + rest)[0] == Text.NatToString(m)[0];
    ParseUnsignedOfNat(m, rest);
  }

  lemma ParseNumberOfIntText(n: int, rest: string)
    requires rest == [] || !(Text.IsDigit(rest[0]) || rest[0] == '.' || rest[0] == 'e' || rest[0] == 'E')
    ensures ParseNumber(Text.IntToString(n) + rest) == Some((JNum(n), rest))
  {
    if n < 0 {
      assert Text.IntToString(n) + rest == "-" + (Text.NatToString(-n) + rest);
      ParseNumberOfNegative(-n, rest);
    } else {
      Text.NatToStringDigits(n);
      ParseNumberOfNatural(n, rest);
    }
  }

  lemma JoinIntsStart(xs: seq<int>)
    requires xs != []
    ensures |JoinInts(xs)| > 0 && JoinInts(xs)[0] == Text.IntToString(xs[0])[0]
  {
  }

  lemma ParseValueOfNumber(s: string)
    requires s != [] && (s[0] == '-' || Text.IsDigit(s[0]))
    ensures ParseValue(s) == ParseNumber(s)
  {
    assert SkipWs(s) == s;
  }

  lemma ParseNumberOfInt(n: int, rest: string)
    requires rest != [] && (rest[0] == ',' || rest[0] == ']')
    ensures ParseValue(Text.IntToString(n) + rest) == Some((JNum(n), rest))
  {
    ParseNumberOfIntText(n, rest);
    ParseValueOfNumber(Text.IntToString(n) + rest);
  }

  lemma ParseElementsStep(s: string, acc: seq<Json>, v: Json, rest: string)
    requires ParseValue(s) == Some((v, rest))
    requires rest != [] && (rest[0] == ']' || rest[0] == ',')
    ensures rest[0] == ']' ==> ParseElements(s, acc) == Some((JArr(acc + [v]), rest[1..]))
    ensures rest[0] == ',' ==> ParseElements(s, acc) == ParseElements(rest[1..], acc + [v])
  {
    assert SkipWs(rest) == rest;
  }

  lemma ParseElementsOfLastInt(x: int, acc: seq<Json>, tail: string)
    ensures ParseElements(Text.IntToString(x) + ("]" + tail), acc) == Some((JArr(acc + [JNum(x)]), tail))
  {
    ParseNumberOfInt(x, "]" + tail);
    ParseElementsStep(Text.IntToString(x) + ("]" + tail), acc, JNum(x), "]" + tail);
    assert ("]" + tail)[1..] == tail;
  }

  lemma ParseElementsOfNextInt(x: int, acc: seq<Json>, more: string)
    requires more != []
    ensures ParseElements(Text.IntToString(x) + ("," + more), acc) == ParseElements(more, acc + [JNum(x)])
  {
    ParseNumberOfInt(x, "," + more);
    ParseElementsStep(Text.IntToString(x) + ("," + more), acc, JNum(x), "," + more);
    assert ("," + more)[1..] == more;
  }

  lemma StringAssoc(a: string, b: string, c: string, r: string)
    ensures (a + (b + c)) + r == a + (b + (c + r))
  {
  }

  lemma JsonSeqAssoc(a: seq<Json>, b: seq<Json>, c: seq<Json>)
    ensures (a + b) + c == a + (b + c)
  {
  }

  lemma {:induction false} ParseElementsOfInts(xs: seq<int>, acc: seq<Json>, tail: string)
    requires xs != []
    ensures ParseElements(JoinInts(xs) + ("]" + tail), acc) == Some((JArr(acc + IntsToJson(xs)), tail))
    decreases |xs|
  {
    if |xs| == 1 {
      ParseElementsOfLastInt(xs[0], acc, tail);
      assert IntsToJson(xs) == [JNum(xs[0])];
    } else {
      var more := JoinInts(xs[1..]);
      StringAssoc(Text.IntToString(xs[0]), ",", more, "]" + tail);
      ParseElementsOfNextInt(xs[0], acc, more + ("]" + tail));
      ParseElementsOfInts(xs[1..], acc + [JNum(xs[0])], tail);
      assert IntsToJson(xs) == [JNum(xs[0])] + IntsToJson(xs[1..]);
      JsonSeqAssoc(acc, [JNum(xs[0])], IntsToJson(xs[1..]));
    }
  }

  /** Round trip: decoding what `json_encode` wrote for an integer list gives
      back that list, in order. */
  lemma DecodeEncodeIntList(xs: seq<int>)
    ensures Decode(EncodeIntList(xs)) == Some(JArr(IntsToJson(xs)))
  {
    var s := EncodeIntList(xs);
    assert SkipWs(s) == s;
    assert s[1..] == JoinInts(xs) + "]";
    if xs == [] {
      assert s[1..] == "]";
      assert IntsToJson(xs) == [];
    } else {
      JoinIntsStart(xs);
      assert s[1] == JoinInts(xs)[0];
      assert "]" + "" == "]";
      ParseElementsOfInts(xs, [], "");
      assert [] + IntsToJson(xs) == IntsToJson(xs);
    }
  }
}
