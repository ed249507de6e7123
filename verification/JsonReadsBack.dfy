/** What is read can be written, and what is written reads back as the same value,
    if and only if no number in it is infinite. */
module JsonReadsBack {
  import opened Wrappers
  import opened Decimals
  import opened Splitting
  import opened Utf8
  import opened JsonText

  // ----- What the reader yields

  predicate Legible(repr: string -> string, v: Json) {
    match v
    case Int(n) => |Decimal(if n < 0 then -n else n)| <= MAX_DIGITS
    case Float(written) => Infinite(written) || (FloatText(written) && repr(written) == written)
    case Arr(items) => LegibleItems(repr, items)
    case Obj(members) => LegibleMembers(repr, members) && Distinct(members)
    case _ => true
  }

  predicate LegibleItems(repr: string -> string, items: Items) {
    items.Item? ==> Legible(repr, items.value) && LegibleItems(repr, items.rest)
  }

  predicate LegibleMembers(repr: string -> string, m: Members) {
    m.Member? ==> Legible(repr, m.value) && LegibleMembers(repr, m.rest)
  }

  /** The decimal of a number is no longer than digits that denote it. */
  lemma {:induction false} DecimalIsShortest(s: string)
    requires Digits(s)
    ensures |Decimal(Value(s))| <= |s|
  {
    var front := s[..|s| - 1];
    assert Digit(s[|s| - 1]);
    assert Value(s) / 10 == Value(front);
    if Value(s) >= 10 {
      assert front != "";
      DecimalIsShortest(front);
    }
  }

  lemma IntIsLegible(repr: string -> string, s: string)
    requires 0 < IntegerEnd(s) == |s| <= MAX_DIGITS + if "-" <= s then 1 else 0
    ensures Legible(repr, Int(IntegerValue(s)))
  {
    IntegerDigits(s);
    DecimalIsShortest(if "-" <= s then s[1..] else s);
  }

  lemma FractionCut(s: string, i: nat, n: nat)
    requires i <= |s| && FractionEnd(s, i) <= n <= |s|
    ensures FractionEnd(s[..n], i) == FractionEnd(s, i)
  {
    if i < n {
      assert s[..n][i + 1..] == s[i + 1..][..n - i - 1];
      SpanCut(s[i + 1..], n - i - 1, Digit);
    }
  }

  lemma ExponentCut(s: string, i: nat, n: nat)
    requires i <= |s| && ExponentEnd(s, i) <= n <= |s|
    ensures ExponentEnd(s[..n], i) == ExponentEnd(s, i)
  {
    if i < n {
      var j := if i + 1 < n && s[i + 1] in "+-" then i + 2 else i + 1;
      assert s[..n][j..] == s[j..][..n - j];
      SpanCut(s[j..], n - j, Digit);
    }
  }

  /** Cutting the text behind a number leaves the number. */
  lemma NumberCut(s: string, n: nat)
    requires NumberEnd(s) <= n <= |s|
    ensures IntegerEnd(s[..n]) == IntegerEnd(s) && NumberEnd(s[..n]) == NumberEnd(s)
  {
    var i := IntegerEnd(s);
    IntegerCut(s, n);
    FractionCut(s, i, n);
    ExponentCut(s, FractionEnd(s, i), n);
  }

  lemma NumberIsLegible(repr: string -> string, s: string)
    requires Settles(repr) && ReadNumber(repr, s).Ok?
    ensures Legible(repr, ReadNumber(repr, s).value.0)
  {
    var i := IntegerEnd(s);
    if i < NumberEnd(s) {
      NumberCut(s, NumberEnd(s));
      assert FloatText(s[..NumberEnd(s)]);
    } else {
      IntegerCut(s, i);
      IntIsLegible(repr, s[..i]);
    }
  }

  /** Every value that is read is legible. */
  lemma {:induction false} ReadIsLegible(repr: string -> string, s: string)
    requires Settles(repr) && ReadValue(repr, s).Ok?
    ensures Legible(repr, ReadValue(repr, s).value.0)
    decreases |s|, 0
  {
    match s[0]
    case 'n' => case 't' => case 'f' => case '"' =>
    case '[' => if !("]" <= Skip(s[1..])) { ItemsAreLegible(repr, Skip(s[1..])); }
    case '{' => if !("}" <= Skip(s[1..])) { MembersAreLegible(repr, Skip(s[1..])); }
    case _ => NumberIsLegible(repr, s);
  }

  lemma {:induction false} ItemsAreLegible(repr: string -> string, s: string)
    requires Settles(repr) && ReadItems(repr, s).Ok?
    ensures LegibleItems(repr, ReadItems(repr, s).value.0)
    decreases |s|, 1
  {
    ReadIsLegible(repr, s);
    var next := Skip(ReadValue(repr, s).value.1);
    if !("]" <= next) { ItemsAreLegible(repr, Skip(next[1..])); }
  }

  lemma {:induction false} MembersAreLegible(repr: string -> string, s: string)
    requires Settles(repr) && ReadMembers(repr, s).Ok?
    ensures LegibleMembers(repr, ReadMembers(repr, s).value.0)
    decreases |s|, 1
  {
    var at := ReadKey(s).value.1;
    ReadIsLegible(repr, at);
    var next := Skip(ReadValue(repr, at).value.1);
    if !("}" <= next) { MembersAreLegible(repr, Skip(next[1..])); }
  }

  // ----- Strings read back

  lemma CodeReadsBack(c: Code, rest: string)
    requires Scalar(c)
    ensures WriteCode(c)[0] != '"' && ReadCode(WriteCode(c) + rest) == Some((c, |WriteCode(c)|))
  {
    var s := WriteCode(c) + rest;
    if c < 0x20 && c !in {8, 9, 10, 12, 13} {
      assert s[0] == '\\' && s[1] == 'u' && s[2] == '0' && s[3] == '0';
      assert s[4] == HexDigit(c / 16) && s[5] == HexDigit(c % 16);
    }
  }

  lemma {:induction false} CodesReadBack(t: Text, rest: string)
    requires AllScalar(t)
    ensures ReadCodes(WriteCodes(t, rest)) == Ok((t, rest))
  {
    if t != [] {
      var first, more := WriteCode(t[0]), WriteCodes(t[1..], rest);
      CodeReadsBack(t[0], more);
      CodesReadBack(t[1..], rest);
      assert (first + more)[|first|..] == more;
      assert [t[0]] + t[1..] == t;
    }
  }

  // ----- Numbers read back

  /** What may follow a number without becoming part of it. */
  predicate Closed(rest: string) { rest == "" || !(Digit(rest[0]) || rest[0] in ".eE+-") }

  lemma SpanCloses(w: string, rest: string, i: nat)
    requires i <= |w| && Closed(rest)
    ensures Span((w + rest)[i..], Digit) <= |w| - i
  {
    if rest != "" {
      assert (w + rest)[i..][|w| - i] == rest[0];
      SpanStops((w + rest)[i..], |w| - i, Digit);
    }
  }

  lemma NumberCloses(w: string, rest: string)
    requires w != "" && Closed(rest)
    ensures NumberEnd(w + rest) <= |w|
  {
    var s := w + rest;
    SpanCloses(w, rest, if "-" <= s then 1 else 0);
    var i := IntegerEnd(s);
    assert i <= |w|;
    if i < |w| { SpanCloses(w, rest, i + 1); }
    var j := FractionEnd(s, i);
    assert j <= |w|;
    if j < |w| { SpanCloses(w, rest, j + 1); }
    if j + 1 < |w| { SpanCloses(w, rest, j + 2); }
  }

  lemma NumberExtends(w: string, rest: string)
    requires w != "" && Closed(rest)
    ensures IntegerEnd(w + rest) == IntegerEnd(w) && NumberEnd(w + rest) == NumberEnd(w)
  {
    NumberCloses(w, rest);
    NumberCut(w + rest, |w|);
    assert (w + rest)[..|w|] == w;
  }

  lemma {:induction false} DecimalLeads(n: nat)
    ensures Digits(Decimal(n)) && (n > 0 ==> Decimal(n)[0] != '0') && (n == 0 ==> Decimal(n) == "0")
  {
    if n >= 10 { DecimalLeads(n / 10); }
  }

  lemma IntEnds(n: int)
    ensures var w := WriteInt(n); w != "" && IntegerEnd(w) == NumberEnd(w) == |w| && IntegerValue(w) == n
    ensures ("-" <= WriteInt(n)) == (n < 0)
  {
    var w, m := WriteInt(n), if n < 0 then -n else n;
    DecimalLeads(m);
    DecimalReadsBack(m);
    SpanOf(Decimal(m), "", Digit);
    assert Decimal(m) + "" == Decimal(m);
    assert n < 0 ==> w[1..] == Decimal(m);
    assert n >= 0 ==> w[0..] == w;
  }

  lemma IntReadsBack(repr: string -> string, n: int, rest: string)
    requires Legible(repr, Int(n)) && Closed(rest)
    ensures ReadNumber(repr, WriteInt(n) + rest) == Ok((Int(n), rest))
  {
    var w := WriteInt(n);
    IntEnds(n);
    NumberExtends(w, rest);
    assert (w + rest)[..|w|] == w && (w + rest)[|w|..] == rest;
    assert ("-" <= w + rest) == ("-" <= w);
  }

  lemma FloatReadsBack(repr: string -> string, w: string, rest: string)
    requires FloatText(w) && Closed(rest)
    ensures ReadNumber(repr, w + rest) == Ok((Float(repr(w)), rest))
  {
    NumberExtends(w, rest);
    assert (w + rest)[..|w|] == w && (w + rest)[|w|..] == rest;
  }

  lemma InfinityIsRefused(repr: string -> string, w: string, rest: string)
    requires Infinite(w)
    ensures ReadNumber(repr, w + rest) == Err(Malformed)
  {
    var s := w + rest;
    assert s[0] == w[0] && s[1] == w[1];
  }

  // ----- Values read back

  predicate Finite(v: Json) {
    match v
    case Float(written) => !Infinite(written)
    case Arr(items) => FiniteItems(items)
    case Obj(members) => FiniteMembers(members)
    case _ => true
  }

  predicate FiniteItems(items: Items) {
    items.Item? ==> Finite(items.value) && FiniteItems(items.rest)
  }

  predicate FiniteMembers(m: Members) {
    m.Member? ==> Finite(m.value) && FiniteMembers(m.rest)
  }

  lemma {:induction false} SkipsSpaces(n: nat, rest: string)
    ensures Skip(Spaces(n, rest)) == Skip(rest)
  {
    if n > 0 {
      var s, more := Spaces(n, rest), Spaces(n - 1, rest);
      assert s[1..] == " " + more && s[1..][1..] == more;
      SkipsSpaces(n - 1, rest);
    }
  }

  lemma SkipsLine(d: nat, rest: string)
    ensures Skip(Line(d, rest)) == Skip(rest) && Closed(Line(d, rest))
  {
    assert Line(d, rest)[1..] == Spaces(d, rest);
    SkipsSpaces(d, rest);
  }

  /** The first character of a written value. */
  predicate Opens(s: string) { s != "" && (s[0] in {'n', 't', 'f', '"', '[', '{'} || OpensNumber(s)) }

  predicate OpensNumber(s: string) { s != "" && (s[0] == '-' || s[0] == 'I' || Digit(s[0])) }

  lemma NumberOpens(repr: string -> string, v: Json, d: nat, rest: string)
    requires Legible(repr, v) && (v.Int? || v.Float?)
    ensures OpensNumber(WriteValue(v, d, rest))
  {
    if v.Int? { DecimalLeads(if v.n < 0 then -v.n else v.n); }
  }

  lemma NotSkipped(s: string)
    requires Opens(s)
    ensures Skip(s) == s && !("]" <= s) && !("}" <= s)
  {
  }

  lemma ValueOpens(repr: string -> string, v: Json, d: nat, rest: string)
    requires Legible(repr, v) && Encodable(v)
    ensures var s := WriteValue(v, d, rest); Opens(s) && Skip(s) == s
  {
    if v.Int? || v.Float? { NumberOpens(repr, v, d, rest); }
    NotSkipped(WriteValue(v, d, rest));
  }

  lemma SkipsSpace(s: string)
    ensures Skip(" " + s) == Skip(s)
  {
    assert (" " + s)[1..] == s;
  }

  lemma KeyReadsBack(key: Text, s: string)
    requires AllScalar(key)
    ensures ReadKey(WriteKey(key, s)) == Ok((key, Skip(s))) && Skip(WriteKey(key, s)) == WriteKey(key, s)
  {
    var after := ": " + s;
    CodesReadBack(key, after);
    assert WriteKey(key, s)[1..] == WriteCodes(key, after);
    assert Skip(after) == after;
    assert after[1..] == " " + s;
    SkipsSpace(s);
  }

  // Single steps of the reader.

  lemma ReadsLiteral(repr: string -> string, rest: string)
    ensures ReadValue(repr, "null" + rest) == Ok((Null, rest))
    ensures ReadValue(repr, "true" + rest) == Ok((Bool(true), rest))
    ensures ReadValue(repr, "false" + rest) == Ok((Bool(false), rest))
  {
    assert ("null" + rest)[4..] == rest && ("true" + rest)[4..] == rest && ("false" + rest)[5..] == rest;
  }

  lemma ReadsNumber(repr: string -> string, s: string)
    requires OpensNumber(s)
    ensures ReadValue(repr, s) == ReadNumber(repr, s)
  {
  }

  lemma ReadsString(repr: string -> string, s: string, t: Text, rest: string)
    requires ReadCodes(s) == Ok((t, rest))
    ensures ReadValue(repr, "\"" + s) == Ok((Str(t), rest))
  {
    assert ("\"" + s)[1..] == s;
  }

  lemma ReadsEmpty(repr: string -> string, rest: string)
    ensures ReadValue(repr, "[]" + rest) == Ok((Arr(NoItems), rest))
    ensures ReadValue(repr, "{}" + rest) == Ok((Obj(NoMembers), rest))
  {
    assert ("[]" + rest)[1..] == "]" + rest && ("{}" + rest)[1..] == "}" + rest;
    assert ("]" + rest)[1..] == rest && ("}" + rest)[1..] == rest;
  }

  lemma ReadsBracket(repr: string -> string, s: string)
    ensures ReadValue(repr, "[" + s) == ReadArray(repr, Skip(s))
    ensures ReadValue(repr, "{" + s) == ReadObject(repr, Skip(s))
  {
    assert ("[" + s)[1..] == s && ("{" + s)[1..] == s;
  }

  lemma ReadsLastItem(repr: string -> string, s: string, rest: string)
    requires ReadValue(repr, s).Ok? && Skip(ReadValue(repr, s).value.1) == "]" + rest
    ensures ReadItems(repr, s) == Ok((Item(ReadValue(repr, s).value.0, NoItems), rest))
  {
    assert ("]" + rest)[1..] == rest;
  }

  lemma ReadsItem(repr: string -> string, s: string, more: string)
    requires ReadValue(repr, s).Ok? && ReadValue(repr, s).value.1 == "," + more
    ensures var r := ReadItems(repr, Skip(more));
            ReadItems(repr, s) ==
              if r.Ok? then Ok((Item(ReadValue(repr, s).value.0, r.value.0), r.value.1)) else Err(r.error)
  {
    assert ("," + more)[1..] == more;
  }

  lemma ReadsLastMember(repr: string -> string, s: string, rest: string)
    requires ReadKey(s).Ok? && ReadValue(repr, ReadKey(s).value.1).Ok?
    requires Skip(ReadValue(repr, ReadKey(s).value.1).value.1) == "}" + rest
    ensures ReadMembers(repr, s)
         == Ok((Member(ReadKey(s).value.0, ReadValue(repr, ReadKey(s).value.1).value.0, NoMembers), rest))
  {
    assert ("}" + rest)[1..] == rest;
  }

  lemma ReadsMember(repr: string -> string, s: string, more: string)
    requires ReadKey(s).Ok? && ReadValue(repr, ReadKey(s).value.1).Ok?
    requires ReadValue(repr, ReadKey(s).value.1).value.1 == "," + more
    ensures var r, v := ReadMembers(repr, Skip(more)), ReadValue(repr, ReadKey(s).value.1).value.0;
            ReadMembers(repr, s) ==
              if r.Ok? then Ok((Member(ReadKey(s).value.0, v, r.value.0), r.value.1)) else Err(r.error)
  {
    assert ("," + more)[1..] == more;
  }

  /** The outcome of reading a text written for something finite or not. */
  function Outcome<T>(finite: bool, v: T, rest: string): Result<(T, string), Error> {
    if finite then Ok((v, rest)) else Err(Malformed)
  }

  lemma NumberReadsBack(repr: string -> string, v: Json, d: nat, rest: string)
    requires Legible(repr, v) && (v.Int? || v.Float?) && Closed(rest)
    ensures ReadValue(repr, WriteValue(v, d, rest)) == Outcome(Finite(v), v, rest)
  {
    NumberOpens(repr, v, d, rest);
    ReadsNumber(repr, WriteValue(v, d, rest));
    if v.Int? {
      IntReadsBack(repr, v.n, rest);
    } else if Infinite(v.written) {
      InfinityIsRefused(repr, v.written, rest);
    } else {
      FloatReadsBack(repr, v.written, rest);
    }
  }

  /** For every value that can be read: its text reads back as the value itself, or
      it holds an infinite number and its text is refused. */
  lemma {:induction false} ValueReadsBack(repr: string -> string, v: Json, d: nat, rest: string)
    requires Legible(repr, v) && Encodable(v) && Closed(rest)
    ensures ReadValue(repr, WriteValue(v, d, rest)) == Outcome(Finite(v), v, rest)
    decreases v, 0
  {
    match v
    case Null => ReadsLiteral(repr, rest);
    case Bool(_) => ReadsLiteral(repr, rest);
    case Int(_) => NumberReadsBack(repr, v, d, rest);
    case Float(_) => NumberReadsBack(repr, v, d, rest);
    case Str(t) =>
      CodesReadBack(t, rest);
      ReadsString(repr, WriteCodes(t, rest), t, rest);
    case Arr(items) =>
      if items.NoItems? {
        ReadsEmpty(repr, rest);
      } else {
        ItemsReadBack(repr, items, d, rest);
        ReadsBracket(repr, WriteItems(items, d + 1, Line(d, "]" + rest)));
      }
    case Obj(members) =>
      if members.NoMembers? {
        ReadsEmpty(repr, rest);
      } else {
        MembersReadBack(repr, members, d, rest);
        ReadsBracket(repr, WriteMembers(members, d + 1, Line(d, "}" + rest)));
      }
  }

  lemma {:induction false} ItemsReadBack(repr: string -> string, items: Items, d: nat, rest: string)
    requires items.Item? && LegibleItems(repr, items) && EncodableItems(items)
    ensures var inner := Skip(WriteItems(items, d + 1, Line(d, "]" + rest)));
            !("]" <= inner) && ReadItems(repr, inner) == Outcome(FiniteItems(items), items, rest)
    decreases items, 1
  {
    var end := Line(d, "]" + rest);
    var after := MoreItems(items.rest, d + 1, end);
    ItemsBegin(repr, items, d + 1, end);
    ItemsFollow(items.rest, d, rest);
    ValueReadsBack(repr, items.value, d + 1, after);
    if items.rest.Item? {
      ItemsReadBack(repr, items.rest, d, rest);
      ItemsGoOn(repr, items, WriteValue(items.value, d + 1, after), WriteItems(items.rest, d + 1, end), rest);
    } else {
      ItemsEnd(repr, items, WriteValue(items.value, d + 1, after), after, rest);
    }
  }

  lemma ItemsFollow(items: Items, d: nat, rest: string)
    requires EncodableItems(items)
    ensures var after := MoreItems(items, d + 1, Line(d, "]" + rest));
            Closed(after) && (items.NoItems? ==> Skip(after) == "]" + rest)
  {
    SkipsLine(d, "]" + rest);
  }

  lemma ItemsBegin(repr: string -> string, items: Items, d: nat, rest: string)
    requires items.Item? && LegibleItems(repr, items) && EncodableItems(items)
    ensures var s := WriteValue(items.value, d, MoreItems(items.rest, d, rest));
            Skip(WriteItems(items, d, rest)) == s && !("]" <= s)
  {
    var s := WriteValue(items.value, d, MoreItems(items.rest, d, rest));
    SkipsLine(d, s);
    ValueOpens(repr, items.value, d, MoreItems(items.rest, d, rest));
    NotSkipped(s);
  }

  lemma ItemsEnd(repr: string -> string, items: Items, s: string, after: string, rest: string)
    requires items.Item? && items.rest.NoItems? && Skip(after) == "]" + rest
    requires ReadValue(repr, s) == Outcome(Finite(items.value), items.value, after)
    ensures ReadItems(repr, s) == Outcome(FiniteItems(items), items, rest)
  {
    if Finite(items.value) { ReadsLastItem(repr, s, rest); }
  }

  lemma ItemsGoOn(repr: string -> string, items: Items, s: string, more: string, rest: string)
    requires items.Item? && ReadValue(repr, s) == Outcome(Finite(items.value), items.value, "," + more)
    requires ReadItems(repr, Skip(more)) == Outcome(FiniteItems(items.rest), items.rest, rest)
    ensures ReadItems(repr, s) == Outcome(FiniteItems(items), items, rest)
  {
    if Finite(items.value) { ReadsItem(repr, s, more); }
  }

  lemma {:induction false} MembersReadBack(repr: string -> string, m: Members, d: nat, rest: string)
    requires m.Member? && LegibleMembers(repr, m) && EncodableMembers(m)
    ensures var inner := Skip(WriteMembers(m, d + 1, Line(d, "}" + rest)));
            !("}" <= inner) && ReadMembers(repr, inner) == Outcome(FiniteMembers(m), m, rest)
    decreases m, 1
  {
    var end := Line(d, "}" + rest);
    var after := MoreMembers(m.rest, d + 1, end);
    MembersBegin(repr, m, d + 1, end);
    MembersFollow(m.rest, d, rest);
    ValueReadsBack(repr, m.value, d + 1, after);
    var at := WriteValue(m.value, d + 1, after);
    if m.rest.Member? {
      MembersReadBack(repr, m.rest, d, rest);
      MembersGoOn(repr, m, WriteKey(m.key, at), at, WriteMembers(m.rest, d + 1, end), rest);
    } else {
      MembersEnd(repr, m, WriteKey(m.key, at), at, after, rest);
    }
  }

  lemma MembersFollow(m: Members, d: nat, rest: string)
    requires EncodableMembers(m)
    ensures var after := MoreMembers(m, d + 1, Line(d, "}" + rest));
            Closed(after) && (m.NoMembers? ==> Skip(after) == "}" + rest)
  {
    SkipsLine(d, "}" + rest);
  }

  lemma MembersBegin(repr: string -> string, m: Members, d: nat, rest: string)
    requires m.Member? && LegibleMembers(repr, m) && EncodableMembers(m)
    ensures var at := WriteValue(m.value, d, MoreMembers(m.rest, d, rest));
            && Skip(WriteMembers(m, d, rest)) == WriteKey(m.key, at) && !("}" <= WriteKey(m.key, at))
            && ReadKey(WriteKey(m.key, at)) == Ok((m.key, at))
  {
    var at := WriteValue(m.value, d, MoreMembers(m.rest, d, rest));
    SkipsLine(d, WriteKey(m.key, at));
    KeyReadsBack(m.key, at);
    NotSkipped(WriteKey(m.key, at));
    ValueOpens(repr, m.value, d, MoreMembers(m.rest, d, rest));
  }

  lemma MembersEnd(repr: string -> string, m: Members, s: string, at: string, after: string, rest: string)
    requires m.Member? && m.rest.NoMembers? && Skip(after) == "}" + rest
    requires ReadKey(s) == Ok((m.key, at)) && ReadValue(repr, at) == Outcome(Finite(m.value), m.value, after)
    ensures ReadMembers(repr, s) == Outcome(FiniteMembers(m), m, rest)
  {
    if Finite(m.value) { ReadsLastMember(repr, s, rest); }
  }

  lemma MembersGoOn(repr: string -> string, m: Members, s: string, at: string, more: string, rest: string)
    requires m.Member? && ReadKey(s) == Ok((m.key, at))
    requires ReadValue(repr, at) == Outcome(Finite(m.value), m.value, "," + more)
    requires ReadMembers(repr, Skip(more)) == Outcome(FiniteMembers(m.rest), m.rest, rest)
    ensures ReadMembers(repr, s) == Outcome(FiniteMembers(m), m, rest)
  {
    if Finite(m.value) { ReadsMember(repr, s, more); }
  }

  lemma TextReadsBack(repr: string -> string, v: Json)
    requires Legible(repr, v) && Encodable(v)
    ensures ReadText(repr, WriteText(v)) == if Finite(v) then Ok(v) else Err(Malformed)
  {
    ValueOpens(repr, v, 0, "\n");
    ValueReadsBack(repr, v, 0, "\n");
    assert "\n"[1..] == "";
  }
}
