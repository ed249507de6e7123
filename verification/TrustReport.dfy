/** The report that the Java probe prints about a trust store, and the inventory
    that the Python side reads from it. */
module TrustReport {
  import opened Wrappers
  import opened Base64
  import opened Utf8
  import opened Splitting
  import opened TextLines

  // ----- Fields and lines

  function Encoded(s: string): string { Encode(Utf8.Utf8(s)) }

  function DecodeField(s: string): Option<string> {
    match Base64.Decode(s)
    case None => None
    case Some(b) => Utf8.Decode(b)
  }

  lemma FieldReadsBack(s: string)
    ensures DecodeField(Encoded(s)) == Some(s)
  {
    DecodeEncode(Utf8.Utf8(s));
    DecodeUtf8(s);
  }

  predicate Field(s: string) { Plain(s) && '\t' !in s }

  lemma EncodedIsField(s: string)
    ensures Field(Encoded(s))
  {
    var t := Encoded(s);
    forall i | 0 <= i < |t| ensures !Break(t[i]) && t[i] != '\t' {
      EncodeInAlphabet(Utf8.Utf8(s), t[i]);
    }
  }

  // ----- What the probe prints

  function TypeLine(storeType: string): string { "TYPE" + "\t" + storeType }

  function CertLine(alias: string, sha256: string): string { "CERT" + "\t" + Encoded(alias) + "\t" + sha256 }

  function AttributeLine(alias: string, name: string, value: string): string {
    "ATTRIBUTE" + "\t" + Encoded(alias) + "\t" + Encoded(name) + "\t" + Encoded(value)
  }

  lemma TypeFields(storeType: string)
    requires Field(storeType)
    ensures Split(TypeLine(storeType), '\t') == ["TYPE", storeType] && Plain(TypeLine(storeType))
  {
    SplitFirst("TYPE", '\t', storeType);
    SplitWhole(storeType, '\t');
  }

  lemma CertFields(alias: string, sha256: string)
    requires Field(sha256)
    ensures Split(CertLine(alias, sha256), '\t') == ["CERT", Encoded(alias), sha256] && Plain(CertLine(alias, sha256))
  {
    var a := Encoded(alias);
    EncodedIsField(alias);
    assert CertLine(alias, sha256) == "CERT" + "\t" + (a + "\t" + sha256);
    SplitFirst("CERT", '\t', a + "\t" + sha256);
    SplitFirst(a, '\t', sha256);
    SplitWhole(sha256, '\t');
  }

  lemma FourFields(a: string, b: string, c: string, d: string)
    requires Field(a) && Field(b) && Field(c) && Field(d)
    ensures Split(a + "\t" + b + "\t" + c + "\t" + d, '\t') == [a, b, c, d]
  {
    var cd := c + "\t" + d;
    var bcd := b + "\t" + cd;
    assert a + "\t" + b + "\t" + c + "\t" + d == a + "\t" + bcd;
    SplitFirst(a, '\t', bcd);
    SplitFirst(b, '\t', cd);
    SplitFirst(c, '\t', d);
    SplitWhole(d, '\t');
  }

  lemma PlainFields(a: string, b: string)
    requires Plain(a) && Plain(b)
    ensures Plain(a + "\t" + b)
  {
  }

  lemma AttributeFields(alias: string, name: string, value: string)
    ensures Split(AttributeLine(alias, name, value), '\t') == ["ATTRIBUTE", Encoded(alias), Encoded(name), Encoded(value)]
    ensures Plain(AttributeLine(alias, name, value))
  {
    EncodedIsField(alias);
    EncodedIsField(name);
    EncodedIsField(value);
    var a, b, c := Encoded(alias), Encoded(name), Encoded(value);
    FourFields("ATTRIBUTE", a, b, c);
    PlainFields("ATTRIBUTE", a);
    PlainFields("ATTRIBUTE" + "\t" + a, b);
    PlainFields("ATTRIBUTE" + "\t" + a + "\t" + b, c);
  }

  // ----- What the reader makes of a line

  datatype Certificate = Certificate(sha256: string, attributes: map<string, string>)

  type Certificates = map<string, Certificate>

  datatype Reading = Reading(storeType: Option<string>, certificates: Certificates)

  predicate Fingerprint(s: string) {
    |s| == 64 && forall i | 0 <= i < |s| :: '0' <= s[i] <= '9' || 'a' <= s[i] <= 'f'
  }

  function WithCertificate(r: Reading, alias: Option<string>, sha256: string): Option<Reading> {
    if alias.None? || alias.value == "" || alias.value in r.certificates then None
    else Some(r.(certificates := r.certificates[alias.value := Certificate(sha256, map[])]))
  }

  function WithAttribute(r: Reading, alias: Option<string>, name: Option<string>, value: Option<string>): Option<Reading> {
    if alias.None? || name.None? || value.None? then None
    else if alias.value !in r.certificates || name.value == "" then None
    else
      var c := r.certificates[alias.value];
      if name.value in c.attributes then None
      else Some(r.(certificates := r.certificates[alias.value := c.(attributes := c.attributes[name.value := value.value])]))
  }

  function Accepted(r: Reading, line: string): Option<Reading> {
    var fields := Split(line, '\t');
    if |fields| == 2 && fields[0] == "TYPE" && r.storeType.None? then Some(r.(storeType := Some(fields[1])))
    else if |fields| == 3 && fields[0] == "CERT" && Fingerprint(fields[2])
    then WithCertificate(r, DecodeField(fields[1]), fields[2])
    else if |fields| == 4 && fields[0] == "ATTRIBUTE"
    then WithAttribute(r, DecodeField(fields[1]), DecodeField(fields[2]), DecodeField(fields[3]))
    else None
  }

  function ReadLines(r: Reading, lines: seq<string>): Option<Reading>
    decreases |lines|
  {
    if lines == [] then Some(r)
    else
      match Accepted(r, lines[0])
      case None => None
      case Some(next) => ReadLines(next, lines[1..])
  }

  const TYPES := ["JKS", "PKCS12"]

  datatype Inventory = Inventory(storeType: string, certificates: Certificates)

  function Finished(r: Option<Reading>): Option<Inventory> {
    if r.None? || r.value.storeType.None? || r.value.storeType.value !in TYPES || r.value.certificates == map[] then None
    else Some(Inventory(r.value.storeType.value, r.value.certificates))
  }

  const START := Reading(None, map[])

  function Inventoried(output: string): Option<Inventory> { Finished(ReadLines(START, SplitLines(output, ""))) }

  method ReadInventory(output: string) returns (r: Option<Inventory>)
    ensures r == Inventoried(output)
  {
    var storeType: Option<string>, certificates: Certificates := None, map[];
    var lines := SplitLines(output, "");
    for i := 0 to |lines|
      invariant ReadLines(Reading(storeType, certificates), lines[i..]) == ReadLines(START, lines)
    {
      assert lines[i..][1..] == lines[i + 1..];
      var next := Accepted(Reading(storeType, certificates), lines[i]);
      if next.None? {
        return None;
      }
      storeType, certificates := next.value.storeType, next.value.certificates;
    }
    return Finished(Some(Reading(storeType, certificates)));
  }

  lemma {:induction false} ReadAppend(r: Reading, a: seq<string>, b: seq<string>)
    ensures ReadLines(r, a + b) == match ReadLines(r, a) case None => None case Some(next) => ReadLines(next, b)
    decreases |a|
  {
    if a == [] {
      assert a + b == b;
    } else {
      assert (a + b)[1..] == a[1..] + b;
      if Accepted(r, a[0]).Some? {
        ReadAppend(Accepted(r, a[0]).value, a[1..], b);
      }
    }
  }

  // ----- One line of each kind

  lemma TypeAccepted(r: Reading, storeType: string)
    requires Field(storeType) && r.storeType.None?
    ensures Accepted(r, TypeLine(storeType)) == Some(r.(storeType := Some(storeType)))
  {
    TypeFields(storeType);
  }

  lemma CertAccepted(r: Reading, alias: string, sha256: string)
    requires Fingerprint(sha256)
    ensures Accepted(r, CertLine(alias, sha256)) == WithCertificate(r, Some(alias), sha256)
  {
    CertFields(alias, sha256);
    FieldReadsBack(alias);
  }

  lemma AttributeAccepted(r: Reading, alias: string, name: string, value: string)
    ensures Accepted(r, AttributeLine(alias, name, value)) == WithAttribute(r, Some(alias), Some(name), Some(value))
  {
    AttributeFields(alias, name, value);
    FieldReadsBack(alias);
    FieldReadsBack(name);
    FieldReadsBack(value);
  }
}
