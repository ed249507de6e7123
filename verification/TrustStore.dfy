/** Trust stores as the Java probe sees them: the report about a store, and the
    filtered copy without the blocked roots. */
module TrustStore {
  import opened Wrappers
  import opened Ordinal
  import opened Tables
  import opened TextLines
  import opened TrustReport

  /** `trusted` is a trusted certificate entry; attributes may repeat a name. */
  datatype Entry = Entry(trusted: bool, sha256: string, attributes: seq<(string, string)>)

  datatype Store = Store(storeType: string, entries: map<string, Entry>)

  datatype Error =
    | NotACertificate | EmptyStore | DuplicateAttribute | InvalidPolicy | NothingRetained
    | CertificateChanged | AttributeChanged | NotEnforced | OriginalChanged

  /** The order in which a sorted map lists its keys; any order will do. */
  type Order = set<string> -> seq<string>

  ghost predicate Lists(order: Order) {
    forall s :: NoRepeats(order(s)) && forall x :: x in order(s) <==> x in s
  }

  /** The sorted order is one. */
  ghost function InOrder(s: set<string>): (r: seq<string>)
    ensures Increasing(r) && forall x :: x in r <==> x in s
    decreases |s|
  {
    if s == {} then []
    else
      var x :| x in s;
      var rest := InOrder(s - {x});
      assert x !in rest;
      InsertOrdered(x, rest);
      Insert(x, rest)
  }

  lemma SortedOrderLists()
    ensures Lists(s => InOrder(s))
  {
    forall s: set<string> ensures NoRepeats(InOrder(s)) {
      var r := InOrder(s);
      forall i, j | 0 <= i < j < |r| ensures r[i] != r[j] {
        LessIrreflexive(r[i]);
      }
    }
  }

  // ----- What the probe collects

  function Certified(store: Store): Result<map<string, string>, Error> {
    if exists alias | alias in store.entries :: !store.entries[alias].trusted then Err(NotACertificate)
    else if store.entries == map[] then Err(EmptyStore)
    else Ok(map alias | alias in store.entries :: store.entries[alias].sha256)
  }

  method CollectInventory(store: Store) returns (r: Result<map<string, string>, Error>)
    ensures r == Certified(store)
  {
    var result: map<string, string>, left := map[], store.entries.Keys;
    while left != {}
      invariant left <= store.entries.Keys
      invariant result == map alias | alias in store.entries && alias !in left :: store.entries[alias].sha256
      invariant forall alias | alias in store.entries && alias !in left :: store.entries[alias].trusted
      decreases |left|
    {
      var alias :| alias in left;
      if !store.entries[alias].trusted {
        return Err(NotACertificate);
      }
      result := result[alias := store.entries[alias].sha256];
      left := left - {alias};
    }
    assert result == map alias | alias in store.entries :: store.entries[alias].sha256;
    assert result.Keys == store.entries.Keys;
    if result == map[] {
      return Err(EmptyStore);
    }
    return Ok(result);
  }

  function Attributes(e: Entry): Result<map<string, string>, Error> {
    if !e.trusted then Err(NotACertificate)
    else if Collected(e.attributes).None? then Err(DuplicateAttribute)
    else Ok(Collected(e.attributes).value)
  }

  method CollectAttributes(e: Entry) returns (r: Result<map<string, string>, Error>)
    ensures r == Attributes(e)
  {
    if !e.trusted {
      return Err(NotACertificate);
    }
    var result: map<string, string> := map[];
    for i := 0 to |e.attributes|
      invariant Collected(e.attributes[..i]) == Some(result)
    {
      assert e.attributes[..i + 1][..i] == e.attributes[..i];
      if e.attributes[i].0 in result {
        NoneStays(e.attributes, i + 1);
        return Err(DuplicateAttribute);
      }
      result := result[e.attributes[i].0 := e.attributes[i].1];
    }
    assert e.attributes[..|e.attributes|] == e.attributes;
    return Ok(result);
  }

  // ----- The report

  function AttributeLines(alias: string, attributes: map<string, string>, names: seq<string>): seq<string>
    requires forall i | 0 <= i < |names| :: names[i] in attributes
  {
    if names == [] then []
    else [AttributeLine(alias, names[0], attributes[names[0]])] + AttributeLines(alias, attributes, names[1..])
  }

  function EntryLines(order: Order, alias: string, c: Certificate): seq<string>
    requires Lists(order)
  {
    [CertLine(alias, c.sha256)] + AttributeLines(alias, c.attributes, order(c.attributes.Keys))
  }

  function Described(certificates: Certificates, order: Order, aliases: seq<string>): seq<string>
    requires Lists(order) && forall i | 0 <= i < |aliases| :: aliases[i] in certificates
  {
    if aliases == [] then []
    else
      EntryLines(order, aliases[0], certificates[aliases[0]]) + Described(certificates, order, aliases[1..])
  }

  /** The entries as certificates, if all of them qualify. */
  function Qualified(store: Store): Result<Certificates, Error> {
    if Certified(store).Err? then Err(Certified(store).error)
    else if exists alias | alias in store.entries :: Attributes(store.entries[alias]).Err? then Err(DuplicateAttribute)
    else Ok(map alias | alias in store.entries ::
              Certificate(store.entries[alias].sha256, Attributes(store.entries[alias]).value))
  }

  function Report(order: Order, store: Store): Result<string, Error>
    requires Lists(order)
  {
    match Qualified(store)
    case Err(e) => Err(e)
    case Ok(certificates) =>
      Ok(Unlines([TypeLine(store.storeType)] + Described(certificates, order, order(certificates.Keys))))
  }

  method Describe(order: Order, store: Store) returns (r: Result<string, Error>)
    requires Lists(order)
    ensures r == Report(order, store)
  {
    var inventory := CollectInventory(store);
    if inventory.Err? {
      return Err(inventory.error);
    }
    var certificates := QualifyAll(store);
    if certificates.Err? {
      return Err(certificates.error);
    }
    var m := certificates.value;
    var lines := DescribeAll(order, m, order(m.Keys));
    return Ok(Unlines([TypeLine(store.storeType)] + lines));
  }

  method DescribeAll(order: Order, m: Certificates, aliases: seq<string>) returns (lines: seq<string>)
    requires Lists(order) && forall i | 0 <= i < |aliases| :: aliases[i] in m
    ensures lines == Described(m, order, aliases)
  {
    lines := [];
    ghost var whole := Described(m, order, aliases);
    for i := 0 to |aliases|
      invariant lines + Described(m, order, aliases[i..]) == whole
    {
      var entry := DescribeEntry(order, aliases[i], m[aliases[i]]);
      NextEntry(lines, m, order, aliases, i, entry);
      lines := lines + entry;
    }
    assert lines + [] == lines;
  }

  method DescribeEntry(order: Order, alias: string, c: Certificate) returns (lines: seq<string>)
    requires Lists(order)
    ensures lines == EntryLines(order, alias, c)
  {
    lines := DescribeAttributes([CertLine(alias, c.sha256)], alias, c.attributes, order(c.attributes.Keys));
  }

  method DescribeAttributes(before: seq<string>, alias: string, attributes: map<string, string>, names: seq<string>)
    returns (lines: seq<string>)
    requires forall i | 0 <= i < |names| :: names[i] in attributes
    ensures lines == before + AttributeLines(alias, attributes, names)
  {
    lines := before;
    for i := 0 to |names|
      invariant lines + AttributeLines(alias, attributes, names[i..]) == before + AttributeLines(alias, attributes, names)
    {
      NextAttribute(lines, alias, attributes, names, i);
      lines := lines + [AttributeLine(alias, names[i], attributes[names[i]])];
    }
    assert lines + [] == lines;
  }

  lemma NextEntry(lines: seq<string>, m: Certificates, order: Order, aliases: seq<string>, i: nat, entry: seq<string>)
    requires Lists(order) && i < |aliases| && forall j | 0 <= j < |aliases| :: aliases[j] in m
    requires entry == EntryLines(order, aliases[i], m[aliases[i]])
    ensures lines + Described(m, order, aliases[i..]) == lines + entry + Described(m, order, aliases[i + 1..])
  {
    assert aliases[i..][1..] == aliases[i + 1..];
    Regrouped(lines, entry, Described(m, order, aliases[i + 1..]));
  }

  lemma NextAttribute(lines: seq<string>, alias: string, attributes: map<string, string>, names: seq<string>, i: nat)
    requires i < |names| && forall j | 0 <= j < |names| :: names[j] in attributes
    ensures lines + AttributeLines(alias, attributes, names[i..])
         == lines + [AttributeLine(alias, names[i], attributes[names[i]])] + AttributeLines(alias, attributes, names[i + 1..])
  {
    assert names[i..][1..] == names[i + 1..];
    Regrouped(lines, [AttributeLine(alias, names[i], attributes[names[i]])], AttributeLines(alias, attributes, names[i + 1..]));
  }

  lemma Regrouped(a: seq<string>, b: seq<string>, c: seq<string>)
    ensures a + (b + c) == a + b + c
  {
  }

  /** The attributes of every entry, or the refusal of the first repeated name. */
  method QualifyAll(store: Store) returns (r: Result<Certificates, Error>)
    requires Certified(store).Ok?
    ensures r == Qualified(store)
  {
    var m: Certificates, left := map[], store.entries.Keys;
    while left != {}
      invariant left <= store.entries.Keys && m.Keys == store.entries.Keys - left
      invariant forall alias | alias in m :: QualifiesAs(store.entries[alias], m[alias])
      decreases |left|
    {
      var alias :| alias in left;
      var attributes := CollectAttributes(store.entries[alias]);
      if attributes.Err? {
        return Err(DuplicateAttribute);
      }
      m := m[alias := Certificate(store.entries[alias].sha256, attributes.value)];
      left := left - {alias};
    }
    AllQualify(store, m);
    return Ok(m);
  }

  predicate QualifiesAs(e: Entry, c: Certificate) {
    Attributes(e).Ok? && c == Certificate(e.sha256, Attributes(e).value)
  }

  lemma AllQualify(store: Store, m: Certificates)
    requires Certified(store).Ok? && m.Keys == store.entries.Keys
    requires forall alias | alias in m :: QualifiesAs(store.entries[alias], m[alias])
    ensures Qualified(store) == Ok(m)
  {
    assert forall alias | alias in store.entries :: QualifiesAs(store.entries[alias], m[alias]);
    assert Qualified(store).value == m;
  }

  // ----- Reading the report back

  function Attributed(r: Reading, alias: string, more: map<string, string>): Reading
    requires alias in r.certificates
  {
    var c := r.certificates[alias];
    r.(certificates := r.certificates[alias := c.(attributes := c.attributes + more)])
  }

  lemma AttributedNone(r: Reading, alias: string)
    requires alias in r.certificates
    ensures Attributed(r, alias, map[]) == r
  {
    var c := r.certificates[alias];
    assert c.attributes + map[] == c.attributes;
    assert r.certificates[alias := c] == r.certificates;
  }

  lemma AttributedTwice(r: Reading, alias: string, a: map<string, string>, b: map<string, string>)
    requires alias in r.certificates
    ensures Attributed(Attributed(r, alias, a), alias, b) == Attributed(r, alias, a + b)
  {
    var c := r.certificates[alias];
    assert c.attributes + a + b == c.attributes + (a + b);
    var d := c.(attributes := c.attributes + (a + b));
    assert Attributed(r, alias, a).certificates[alias := d] == r.certificates[alias := d];
  }

  lemma OneAttribute(r: Reading, alias: string, name: string, value: string)
    requires alias in r.certificates && name !in r.certificates[alias].attributes
    ensures Accepted(r, AttributeLine(alias, name, value))
         == if name == "" then None else Some(Attributed(r, alias, map[name := value]))
  {
    AttributeAccepted(r, alias, name, value);
    var c := r.certificates[alias];
    assert c.attributes[name := value] == c.attributes + map[name := value];
  }

  /** The part of a map that a list of keys selects. */
  function Among(m: map<string, string>, names: seq<string>): map<string, string>
    requires forall i | 0 <= i < |names| :: names[i] in m
  {
    if names == [] then map[] else map[names[0] := m[names[0]]] + Among(m, names[1..])
  }

  lemma {:induction false} AttributesReadBack(r: Reading, alias: string, attributes: map<string, string>, names: seq<string>)
    requires alias in r.certificates && NoRepeats(names)
    requires forall i | 0 <= i < |names| :: names[i] in attributes && names[i] !in r.certificates[alias].attributes
    ensures ReadLines(r, AttributeLines(alias, attributes, names))
         == if "" in names then None else Some(Attributed(r, alias, Among(attributes, names)))
    decreases |names|
  {
    if names == [] {
      AttributedNone(r, alias);
    } else {
      var name, value := names[0], attributes[names[0]];
      OneAttribute(r, alias, name, value);
      FirstRead(r, AttributeLine(alias, name, value), AttributeLines(alias, attributes, names[1..]));
      assert names == [name] + names[1..];
      if name != "" {
        AttributesReadBack(Attributed(r, alias, map[name := value]), alias, attributes, names[1..]);
        AttributedTwice(r, alias, map[name := value], Among(attributes, names[1..]));
      }
    }
  }

  lemma FirstRead(r: Reading, line: string, lines: seq<string>)
    ensures ReadLines(r, [line] + lines)
         == match Accepted(r, line) case None => None case Some(next) => ReadLines(next, lines)
  {
    assert ([line] + lines)[1..] == lines;
  }

  lemma {:induction false} AmongAt(m: map<string, string>, names: seq<string>)
    requires forall i | 0 <= i < |names| :: names[i] in m
    ensures forall x :: x in Among(m, names) <==> x in names
    ensures forall x | x in Among(m, names) :: x in m && Among(m, names)[x] == m[x]
  {
    if names != [] {
      AmongAt(m, names[1..]);
      assert names == [names[0]] + names[1..];
    }
  }

  lemma AmongAll(order: Order, m: map<string, string>)
    requires Lists(order)
    ensures Among(m, order(m.Keys)) == m
  {
    AmongAt(m, order(m.Keys));
  }

  predicate Named(alias: string, c: Certificate) { alias != "" && "" !in c.attributes }

  function With(r: Reading, more: Certificates): Reading { r.(certificates := r.certificates + more) }

  lemma WithTwice(r: Reading, a: Certificates, b: Certificates)
    ensures With(With(r, a), b) == With(r, a + b)
  {
    assert r.certificates + a + b == r.certificates + (a + b);
  }

  lemma WithBare(r: Reading, alias: string, sha256: string)
    requires alias != "" && alias !in r.certificates
    ensures WithCertificate(r, Some(alias), sha256) == Some(With(r, map[alias := Certificate(sha256, map[])]))
  {
    var c := Certificate(sha256, map[]);
    assert r.certificates[alias := c] == r.certificates + map[alias := c];
  }

  lemma BareAttributed(r: Reading, alias: string, c: Certificate)
    ensures Attributed(With(r, map[alias := Certificate(c.sha256, map[])]), alias, c.attributes) == With(r, map[alias := c])
  {
    assert map[] + c.attributes == c.attributes;
    assert (r.certificates + map[alias := Certificate(c.sha256, map[])])[alias := c] == r.certificates + map[alias := c];
  }

  /** Wherever they come, the lines add one certificate under a new alias. */
  ghost predicate Adds(lines: seq<string>, alias: string, c: Certificate) {
    forall r: Reading | alias !in r.certificates ::
      ReadLines(r, lines) == if Named(alias, c) then Some(With(r, map[alias := c])) else None
  }

  lemma CertThenAttributes(r: Reading, line: string, alias: string, c: Certificate, names: seq<string>)
    requires Accepted(r, line) == WithCertificate(r, Some(alias), c.sha256) && alias !in r.certificates
    requires NoRepeats(names) && (forall x :: x in names <==> x in c.attributes) && Among(c.attributes, names) == c.attributes
    ensures ReadLines(r, [line] + AttributeLines(alias, c.attributes, names))
         == if Named(alias, c) then Some(With(r, map[alias := c])) else None
  {
    FirstRead(r, line, AttributeLines(alias, c.attributes, names));
    if alias != "" {
      WithBare(r, alias, c.sha256);
      AttributesReadBack(With(r, map[alias := Certificate(c.sha256, map[])]), alias, c.attributes, names);
      BareAttributed(r, alias, c);
    }
  }

  lemma EntryAdds(order: Order, alias: string, c: Certificate)
    requires Lists(order) && Fingerprint(c.sha256)
    ensures Adds(EntryLines(order, alias, c), alias, c)
  {
    AmongAll(order, c.attributes);
    forall r: Reading | alias !in r.certificates
      ensures ReadLines(r, EntryLines(order, alias, c))
           == if Named(alias, c) then Some(With(r, map[alias := c])) else None
    {
      CertAccepted(r, alias, c.sha256);
      CertThenAttributes(r, CertLine(alias, c.sha256), alias, c, order(c.attributes.Keys));
    }
  }

  lemma OneMore(r: Reading, first: seq<string>, rest: seq<string>, alias: string, c: Certificate, more: Certificates, named: bool)
    requires Adds(first, alias, c) && alias !in r.certificates
    requires ReadLines(With(r, map[alias := c]), rest)
          == if named then Some(With(With(r, map[alias := c]), more)) else None
    ensures ReadLines(r, first + rest)
         == if Named(alias, c) && named then Some(With(r, map[alias := c] + more)) else None
  {
    ReadAppend(r, first, rest);
    WithTwice(r, map[alias := c], more);
  }

  function Chosen(m: Certificates, aliases: seq<string>): Certificates
    requires forall i | 0 <= i < |aliases| :: aliases[i] in m
  {
    if aliases == [] then map[] else map[aliases[0] := m[aliases[0]]] + Chosen(m, aliases[1..])
  }

  ghost predicate AllNamed(m: Certificates, aliases: seq<string>)
    requires forall i | 0 <= i < |aliases| :: aliases[i] in m
  {
    forall i | 0 <= i < |aliases| :: Named(aliases[i], m[aliases[i]])
  }

  lemma {:induction false} EntriesReadBack(r: Reading, order: Order, m: Certificates, aliases: seq<string>)
    requires Lists(order) && NoRepeats(aliases)
    requires forall i | 0 <= i < |aliases| ::
               aliases[i] in m && Fingerprint(m[aliases[i]].sha256) && aliases[i] !in r.certificates
    ensures ReadLines(r, Described(m, order, aliases))
         == if AllNamed(m, aliases) then Some(With(r, Chosen(m, aliases))) else None
    decreases |aliases|
  {
    if aliases == [] {
      assert r.certificates + Chosen(m, aliases) == r.certificates;
    } else {
      var alias, c, rest := aliases[0], m[aliases[0]], aliases[1..];
      EntryAdds(order, alias, c);
      FirstNamed(m, aliases);
      EntriesReadBack(With(r, map[alias := c]), order, m, rest);
      OneMore(r, EntryLines(order, alias, c), Described(m, order, rest), alias, c, Chosen(m, rest), AllNamed(m, rest));
    }
  }

  lemma FirstNamed(m: Certificates, aliases: seq<string>)
    requires aliases != [] && forall i | 0 <= i < |aliases| :: aliases[i] in m
    ensures AllNamed(m, aliases) <==> Named(aliases[0], m[aliases[0]]) && AllNamed(m, aliases[1..])
  {
    assert aliases == [aliases[0]] + aliases[1..];
  }

  // ----- The whole report

  lemma {:induction false} AttributeLinesPlain(alias: string, attributes: map<string, string>, names: seq<string>)
    requires forall i | 0 <= i < |names| :: names[i] in attributes
    ensures forall i | 0 <= i < |AttributeLines(alias, attributes, names)| :: Plain(AttributeLines(alias, attributes, names)[i])
  {
    if names != [] {
      AttributeFields(alias, names[0], attributes[names[0]]);
      AttributeLinesPlain(alias, attributes, names[1..]);
    }
  }

  ghost predicate AllPlain(lines: seq<string>) { forall i | 0 <= i < |lines| :: Plain(lines[i]) }

  lemma EntryLinesPlain(order: Order, alias: string, c: Certificate)
    requires Lists(order) && Fingerprint(c.sha256)
    ensures AllPlain(EntryLines(order, alias, c))
  {
    CertFields(alias, c.sha256);
    AttributeLinesPlain(alias, c.attributes, order(c.attributes.Keys));
  }

  lemma PlainAppend(a: seq<string>, b: seq<string>)
    requires AllPlain(a) && AllPlain(b)
    ensures AllPlain(a + b)
  {
  }

  lemma {:induction false} DescribedPlain(m: Certificates, order: Order, aliases: seq<string>)
    requires Lists(order) && forall i | 0 <= i < |aliases| :: aliases[i] in m && Fingerprint(m[aliases[i]].sha256)
    ensures AllPlain(Described(m, order, aliases))
  {
    if aliases != [] {
      EntryLinesPlain(order, aliases[0], m[aliases[0]]);
      DescribedPlain(m, order, aliases[1..]);
      PlainAppend(EntryLines(order, aliases[0], m[aliases[0]]), Described(m, order, aliases[1..]));
    }
  }

  lemma {:induction false} ChosenAt(m: Certificates, aliases: seq<string>)
    requires forall i | 0 <= i < |aliases| :: aliases[i] in m
    ensures forall x :: x in Chosen(m, aliases) <==> x in aliases
    ensures forall x | x in Chosen(m, aliases) :: x in m && Chosen(m, aliases)[x] == m[x]
  {
    if aliases != [] {
      ChosenAt(m, aliases[1..]);
      assert aliases == [aliases[0]] + aliases[1..];
    }
  }

  /** As keystores and digests have it: one line is enough for the type, and a
      fingerprint is 64 hexadecimal digits. */
  predicate Sane(store: Store) {
    Field(store.storeType) && forall alias | alias in store.entries :: Fingerprint(store.entries[alias].sha256)
  }

  lemma ChosenAll(m: Certificates, aliases: seq<string>)
    requires forall x :: x in aliases <==> x in m
    ensures Chosen(m, aliases) == m
  {
    ChosenAt(m, aliases);
  }

  lemma Complete(m: Certificates, aliases: seq<string>, storeType: string)
    requires forall x :: x in aliases <==> x in m
    ensures With(Reading(Some(storeType), map[]), Chosen(m, aliases)) == Reading(Some(storeType), m)
  {
    ChosenAll(m, aliases);
    assert map[] + m == m;
  }

  lemma AllNamedMeans(m: Certificates, aliases: seq<string>)
    requires forall x :: x in aliases <==> x in m
    ensures AllNamed(m, aliases) <==> forall alias | alias in m :: Named(alias, m[alias])
  {
    if AllNamed(m, aliases) {
      forall alias | alias in m ensures Named(alias, m[alias]) {
        assert alias in aliases;
      }
    }
  }

  lemma ReadDescribed(order: Order, storeType: string, m: Certificates)
    requires Lists(order) && forall alias | alias in m :: Fingerprint(m[alias].sha256)
    ensures ReadLines(Reading(Some(storeType), map[]), Described(m, order, order(m.Keys)))
         == if forall alias | alias in m :: Named(alias, m[alias]) then Some(Reading(Some(storeType), m)) else None
  {
    EntriesReadBack(Reading(Some(storeType), map[]), order, m, order(m.Keys));
    Complete(m, order(m.Keys), storeType);
    AllNamedMeans(m, order(m.Keys));
  }

  lemma TypeFirst(storeType: string, lines: seq<string>)
    requires Field(storeType) && AllPlain(lines)
    ensures Inventoried(Unlines([TypeLine(storeType)] + lines))
         == Finished(ReadLines(Reading(Some(storeType), map[]), lines))
  {
    TypeFields(storeType);
    PlainAppend([TypeLine(storeType)], lines);
    LinesReadBack([TypeLine(storeType)] + lines);
    TypeAccepted(START, storeType);
    FirstRead(START, TypeLine(storeType), lines);
  }

  lemma DescriptionReadsBack(order: Order, storeType: string, m: Certificates)
    requires Lists(order) && Field(storeType) && m != map[] && forall alias | alias in m :: Fingerprint(m[alias].sha256)
    ensures Inventoried(Unlines([TypeLine(storeType)] + Described(m, order, order(m.Keys))))
         == if storeType in TYPES && forall alias | alias in m :: Named(alias, m[alias])
            then Some(Inventory(storeType, m)) else None
  {
    DescribedPlain(m, order, order(m.Keys));
    TypeFirst(storeType, Described(m, order, order(m.Keys)));
    ReadDescribed(order, storeType, m);
  }

  /** Every report reads back to exactly the store's type, aliases, fingerprints
      and attributes; the reader refuses it exactly if the type is another one or
      if an alias or an attribute name is empty. */
  lemma ReportReadsBack(order: Order, store: Store)
    requires Lists(order) && Sane(store) && Report(order, store).Ok?
    ensures Inventoried(Report(order, store).value)
         == var m := Qualified(store).value;
            if store.storeType in TYPES && forall alias | alias in m :: Named(alias, m[alias])
            then Some(Inventory(store.storeType, m)) else None
  {
    var m := Qualified(store).value;
    DescriptionReadsBack(order, store.storeType, m);
  }
}
