/** JSON text as Python's `json` reads and writes it: the reader with its escapes,
    its numbers and its refusal of repeated keys, and the writer with two spaces
    of indentation that leaves characters beyond ASCII as they are.

    The writer takes the text that follows, so that what it writes stands in
    front of `rest`. */
module JsonText {
  import opened Wrappers
  import opened Decimals
  import opened Splitting
  import opened Utf8

  /** A code point, among them the surrogates that an escape can name. */
  type Code = c: int | 0 <= c < 0x110000
  type Text = seq<Code>

  /** A floating-point number is told by the text that Python writes for it. */
  datatype Json =
    | Null | Bool(b: bool) | Int(n: int) | Float(written: string) | Str(text: Text)
    | Arr(items: Items) | Obj(members: Members)

  datatype Items = NoItems | Item(value: Json, rest: Items)

  /** The members of an object, in order. */
  datatype Members = NoMembers | Member(key: Text, value: Json, rest: Members)

  datatype Error = Malformed | RepeatedKey

  const MAX_DIGITS := 4300

  // ----- Strings

  function HexDigit(n: int): char
    requires 0 <= n < 16
  {
    if n < 10 then (n + '0' as int) as char else (n - 10 + 'a' as int) as char
  }

  function HexValue(c: char): (r: Option<int>)
    ensures r.Some? ==> 0 <= r.value < 16
  {
    if '0' <= c <= '9' then Some(c as int - '0' as int)
    else if 'a' <= c <= 'f' then Some(c as int - 'a' as int + 10)
    else if 'A' <= c <= 'F' then Some(c as int - 'A' as int + 10)
    else None
  }

  function Simple(c: char): Option<Code> {
    match c
    case '"' => Some(0x22) case '\\' => Some(0x5C) case '/' => Some(0x2F)
    case 'b' => Some(8) case 'f' => Some(12) case 'n' => Some(10) case 'r' => Some(13) case 't' => Some(9)
    case _ => None
  }

  function HexPair(c: char, d: char): (r: Option<int>)
    ensures r.Some? ==> 0 <= r.value < 256
  {
    var high, low := HexValue(c), HexValue(d);
    if high.None? || low.None? then None else Some(high.value * 16 + low.value)
  }

  /** The code of an escape with four hexadecimal digits at the start of `s`. */
  function ReadHex(s: string): (r: Option<Code>)
    ensures r.Some? ==> 6 <= |s| && r.value < 0x10000
  {
    if |s| < 6 || s[0] != '\\' || s[1] != 'u' then None
    else
      var high, low := HexPair(s[2], s[3]), HexPair(s[4], s[5]);
      if high.None? || low.None? then None else Some(high.value * 256 + low.value)
  }

  /** The first character within quotes and the length of its text. Two escapes
      that make up a surrogate pair are one character. */
  function ReadCode(s: string): (r: Option<(Code, nat)>)
    ensures r.Some? ==> 1 <= r.value.1 <= |s|
  {
    if s == "" || s[0] < ' ' then None
    else if s[0] != '\\' then Some((s[0] as int, 1))
    else if |s| < 2 then None
    else if s[1] != 'u' then (if Simple(s[1]).Some? then Some((Simple(s[1]).value, 2)) else None)
    else if ReadHex(s).None? then None
    else
      var c, d := ReadHex(s).value, ReadHex(s[6..]);
      if 0xD800 <= c < 0xDC00 && d.Some? && 0xDC00 <= d.value < 0xE000
      then Some((0x10000 + (c - 0xD800) * 0x400 + (d.value - 0xDC00), 12))
      else Some((c, 6))
  }

  /** A string up to its closing quote, and what follows. */
  function ReadCodes(s: string): (r: Result<(Text, string), Error>)
    ensures r.Ok? ==> |r.value.1| < |s|
    decreases |s|
  {
    if s != "" && s[0] == '"' then Ok(([], s[1..]))
    else
      match ReadCode(s)
      case None => Err(Malformed)
      case Some((c, n)) =>
        match ReadCodes(s[n..])
        case Err(e) => Err(e)
        case Ok((t, rest)) => Ok(([c] + t, rest))
  }

  function WriteCode(c: Code): (r: string)
    requires Scalar(c)
    ensures r != ""
  {
    match c
    case 0x22 => "\\\"" case 0x5C => "\\\\"
    case 8 => "\\b" case 12 => "\\f" case 10 => "\\n" case 13 => "\\r" case 9 => "\\t"
    case _ => if c < 0x20 then "\\u00" + [HexDigit(c / 16), HexDigit(c % 16)] else [c as char]
  }

  predicate AllScalar(t: Text) { forall i | 0 <= i < |t| :: Scalar(t[i]) }

  function WriteCodes(t: Text, rest: string): string
    requires AllScalar(t)
  {
    if t == [] then "\"" + rest else WriteCode(t[0]) + WriteCodes(t[1..], rest)
  }

  // ----- Numbers

  /** Where the integer at the start of `s` ends, 0 if there is none. */
  function IntegerEnd(s: string): (n: nat)
    ensures n <= |s|
  {
    var i := if "-" <= s then 1 else 0;
    var n := Span(s[i..], Digit);
    if n == 0 then 0 else if s[i] == '0' then i + 1 else i + n
  }

  /** Cutting the text behind the integer leaves the integer. */
  lemma IntegerCut(s: string, n: nat)
    requires IntegerEnd(s) <= n <= |s|
    ensures IntegerEnd(s[..n]) == IntegerEnd(s)
  {
    var i := if "-" <= s then 1 else 0;
    if i <= n {
      assert s[..n][i..] == s[i..][..n - i];
      SpanCut(s[i..], n - i, Digit);
    }
  }

  function FractionEnd(s: string, i: nat): (n: nat)
    requires i <= |s|
    ensures i <= n <= |s|
  {
    if i < |s| && s[i] == '.' && Span(s[i + 1..], Digit) > 0 then i + 1 + Span(s[i + 1..], Digit) else i
  }

  function ExponentEnd(s: string, i: nat): (n: nat)
    requires i <= |s|
    ensures i <= n <= |s|
  {
    if i == |s| || s[i] !in "eE" then i
    else
      var j := if i + 1 < |s| && s[i + 1] in "+-" then i + 2 else i + 1;
      if Span(s[j..], Digit) == 0 then i else j + Span(s[j..], Digit)
  }

  function NumberEnd(s: string): (n: nat)
    ensures IntegerEnd(s) <= n <= |s|
  {
    ExponentEnd(s, FractionEnd(s, IntegerEnd(s)))
  }

  /** A whole number with a fraction or an exponent. */
  predicate FloatText(s: string) { 0 < IntegerEnd(s) < NumberEnd(s) == |s| }

  predicate Infinite(written: string) { written in {"Infinity", "-Infinity"} }

  /** `repr` stands for reading the text of a number as a floating-point number
      and writing that: what is written is infinite, or it reads as the same number. */
  ghost predicate Settles(repr: string -> string) {
    forall s | FloatText(s) :: Infinite(repr(s)) || (FloatText(repr(s)) && repr(repr(s)) == repr(s))
  }

  /** The integer that a text of digits with or without sign denotes. */
  function IntegerValue(s: string): int
    requires 0 < IntegerEnd(s) == |s|
  {
    IntegerDigits(s);
    if "-" <= s then -(Value(s[1..]) as int) else Value(s)
  }

  lemma IntegerDigits(s: string)
    requires 0 < IntegerEnd(s) == |s|
    ensures if "-" <= s then Digits(s[1..]) else Digits(s)
  {
    var i := if "-" <= s then 1 else 0;
    SpanAll(s[i..], Digit);
  }

  function ReadNumber(repr: string -> string, s: string): (r: Result<(Json, string), Error>)
    ensures r.Ok? ==> |r.value.1| < |s|
  {
    var i, n := IntegerEnd(s), NumberEnd(s);
    if i == 0 then Err(Malformed)
    else if i < n then Ok((Float(repr(s[..n])), s[n..]))
    else
      WholeInteger(s);
      if |s[..i]| > MAX_DIGITS + (if "-" <= s then 1 else 0) then Err(Malformed)
      else Ok((Int(IntegerValue(s[..i])), s[i..]))
  }

  lemma WholeInteger(s: string)
    ensures IntegerEnd(s[..IntegerEnd(s)]) == IntegerEnd(s)
  {
    IntegerCut(s, IntegerEnd(s));
  }

  function WriteInt(n: int): string { if n < 0 then "-" + Decimal(-n) else Decimal(n) }

  // ----- Values

  predicate White(c: char) { c in " \t\n\r" }

  function Skip(s: string): (r: string)
    ensures |r| <= |s|
  {
    if s != "" && White(s[0]) then Skip(s[1..]) else s
  }

  function Keys(m: Members): set<Text> {
    if m.NoMembers? then {} else {m.key} + Keys(m.rest)
  }

  predicate Distinct(m: Members) { m.Member? ==> m.key !in Keys(m.rest) && Distinct(m.rest) }

  function ReadLiteral(s: string, literal: string, v: Json): (r: Result<(Json, string), Error>)
    requires literal != ""
    ensures r.Ok? ==> |r.value.1| < |s|
  {
    if literal <= s then Ok((v, s[|literal|..])) else Err(Malformed)
  }

  /** The value at the start of `s`, and what follows it. */
  function ReadValue(repr: string -> string, s: string): (r: Result<(Json, string), Error>)
    ensures r.Ok? ==> |r.value.1| < |s|
    decreases |s|, 0
  {
    if s == "" then Err(Malformed)
    else
      match s[0]
      case 'n' => ReadLiteral(s, "null", Null)
      case 't' => ReadLiteral(s, "true", Bool(true))
      case 'f' => ReadLiteral(s, "false", Bool(false))
      case '"' =>
        (match ReadCodes(s[1..])
         case Err(e) => Err(e)
         case Ok((t, rest)) => Ok((Str(t), rest)))
      case '[' => ReadArray(repr, Skip(s[1..]))
      case '{' => ReadObject(repr, Skip(s[1..]))
      case _ => ReadNumber(repr, s)
  }

  /** What follows an opening bracket. */
  function ReadArray(repr: string -> string, s: string): (r: Result<(Json, string), Error>)
    ensures r.Ok? ==> |r.value.1| < |s|
    decreases |s|, 2
  {
    if "]" <= s then Ok((Arr(NoItems), s[1..]))
    else
      match ReadItems(repr, s)
      case Err(e) => Err(e)
      case Ok((items, rest)) => Ok((Arr(items), rest))
  }

  /** What follows an opening brace. */
  function ReadObject(repr: string -> string, s: string): (r: Result<(Json, string), Error>)
    ensures r.Ok? ==> |r.value.1| < |s|
    decreases |s|, 2
  {
    if "}" <= s then Ok((Obj(NoMembers), s[1..]))
    else
      match ReadMembers(repr, s)
      case Err(e) => Err(e)
      case Ok((members, rest)) => if Distinct(members) then Ok((Obj(members), rest)) else Err(RepeatedKey)
  }

  /** One or more values up to the closing bracket. */
  function ReadItems(repr: string -> string, s: string): (r: Result<(Items, string), Error>)
    ensures r.Ok? ==> |r.value.1| < |s|
    decreases |s|, 1
  {
    match ReadValue(repr, s)
    case Err(e) => Err(e)
    case Ok((v, after)) =>
      var next := Skip(after);
      if "]" <= next then Ok((Item(v, NoItems), next[1..]))
      else if !("," <= next) then Err(Malformed)
      else
        match ReadItems(repr, Skip(next[1..]))
        case Err(e) => Err(e)
        case Ok((items, rest)) => Ok((Item(v, items), rest))
  }

  /** One or more members up to the closing brace. */
  function ReadMembers(repr: string -> string, s: string): (r: Result<(Members, string), Error>)
    ensures r.Ok? ==> |r.value.1| < |s|
    decreases |s|, 1
  {
    match ReadKey(s)
    case Err(e) => Err(e)
    case Ok((key, at)) =>
      match ReadValue(repr, at)
      case Err(e) => Err(e)
      case Ok((v, after)) =>
        var next := Skip(after);
        if "}" <= next then Ok((Member(key, v, NoMembers), next[1..]))
        else if !("," <= next) then Err(Malformed)
        else
          match ReadMembers(repr, Skip(next[1..]))
          case Err(e) => Err(e)
          case Ok((members, rest)) => Ok((Member(key, v, members), rest))
  }

  /** A key and its colon, and the text from its value on. */
  function ReadKey(s: string): (r: Result<(Text, string), Error>)
    ensures r.Ok? ==> |r.value.1| < |s|
  {
    if !("\"" <= s) then Err(Malformed)
    else
      match ReadCodes(s[1..])
      case Err(e) => Err(e)
      case Ok((key, after)) =>
        var next := Skip(after);
        if ":" <= next then Ok((key, Skip(next[1..]))) else Err(Malformed)
  }

  /** A whole text holds one value and white space. */
  function ReadText(repr: string -> string, s: string): Result<Json, Error> {
    match ReadValue(repr, Skip(s))
    case Err(e) => Err(e)
    case Ok((v, rest)) => if Skip(rest) == "" then Ok(v) else Err(Malformed)
  }

  /** No surrogates, so that UTF-8 has a place for every character. */
  predicate Encodable(v: Json) {
    match v
    case Str(t) => AllScalar(t)
    case Arr(items) => EncodableItems(items)
    case Obj(members) => EncodableMembers(members)
    case _ => true
  }

  predicate EncodableItems(items: Items) {
    items.Item? ==> Encodable(items.value) && EncodableItems(items.rest)
  }

  predicate EncodableMembers(m: Members) {
    m.Member? ==> AllScalar(m.key) && Encodable(m.value) && EncodableMembers(m.rest)
  }

  function Spaces(n: nat, rest: string): string { if n == 0 then rest else "  " + Spaces(n - 1, rest) }

  /** A new line at depth `d`. */
  function Line(d: nat, rest: string): string { "\n" + Spaces(d, rest) }

  function WriteValue(v: Json, d: nat, rest: string): string
    requires Encodable(v)
    decreases v, 0
  {
    match v
    case Null => "null" + rest
    case Bool(b) => (if b then "true" else "false") + rest
    case Int(n) => WriteInt(n) + rest
    case Float(written) => written + rest
    case Str(t) => "\"" + WriteCodes(t, rest)
    case Arr(NoItems) => "[]" + rest
    case Arr(items) => "[" + WriteItems(items, d + 1, Line(d, "]" + rest))
    case Obj(NoMembers) => "{}" + rest
    case Obj(members) => "{" + WriteMembers(members, d + 1, Line(d, "}" + rest))
  }

  function WriteItems(items: Items, d: nat, rest: string): string
    requires items.Item? && EncodableItems(items)
    decreases items, 0
  {
    Line(d, WriteValue(items.value, d, MoreItems(items.rest, d, rest)))
  }

  function MoreItems(items: Items, d: nat, rest: string): string
    requires EncodableItems(items)
    decreases items, 1
  {
    if items.Item? then "," + WriteItems(items, d, rest) else rest
  }

  function WriteKey(key: Text, rest: string): string
    requires AllScalar(key)
  {
    "\"" + WriteCodes(key, ": " + rest)
  }

  function WriteMembers(m: Members, d: nat, rest: string): string
    requires m.Member? && EncodableMembers(m)
    decreases m, 0
  {
    Line(d, WriteKey(m.key, WriteValue(m.value, d, MoreMembers(m.rest, d, rest))))
  }

  function MoreMembers(m: Members, d: nat, rest: string): string
    requires EncodableMembers(m)
    decreases m, 1
  {
    if m.Member? then "," + WriteMembers(m, d, rest) else rest
  }

  /** A value and a final new line. */
  function WriteText(v: Json): string
    requires Encodable(v)
  {
    WriteValue(v, 0, "\n")
  }
}
