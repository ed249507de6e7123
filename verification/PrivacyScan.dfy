/** Scanning a list of repository snapshots with one shared cache of blob
    results, against scanning each of them plainly. The rules for single lines,
    file names and vendored files are taken as given functions. */
module PrivacyScan {
  import opened Wrappers
  import opened BatchReader

  const SUBMODULE := "160000"

  datatype Entry = Entry(path: string, oid: Oid, mode: string)

  /** A commit tree, or the index if there is no message. */
  datatype Snapshot = Snapshot(name: string, message: Option<Bytes>, files: seq<Entry>)

  datatype Issue = Issue(line: nat, text: string)

  datatype Finding =
    | InMessage(name: string, issue: Issue)
    | ForbiddenName(name: string, number: nat)
    | PrivateName(name: string, number: nat)
    | Uninspected(name: string, number: nat)
    | InFile(name: string, number: nat, issue: Issue)

  datatype Rules = Rules(
    scanBlob: (string, Bytes) -> seq<Issue>,
    forbidden: string -> bool,
    privateName: string -> bool,
    vendored: string -> bool,
    manifest: string,
    listed: Bytes -> map<string, string>,
    matches: (Bytes, string) -> bool)

  predicate Inspected(e: Entry) { e.mode != SUBMODULE }

  // ----- The plain scan

  predicate Present(objects: map<Oid, Object>, files: seq<Entry>) {
    forall i | 0 <= i < |files| && Inspected(files[i]) :: IsBlob(objects, files[i].oid)
  }

  /** The first provenance manifest among the files. */
  function Manifest(rules: Rules, files: seq<Entry>): (r: Option<Entry>)
    ensures r.Some? ==> r.value in files && Inspected(r.value)
  {
    if files == [] then None
    else if files[0].path == rules.manifest && Inspected(files[0]) then Some(files[0])
    else Manifest(rules, files[1..])
  }

  function Allowed(rules: Rules, objects: map<Oid, Object>, files: seq<Entry>): map<string, string>
    requires Present(objects, files)
  {
    match Manifest(rules, files)
    case None => map[]
    case Some(e) => rules.listed(objects[e.oid].data)
  }

  predicate Exempt(rules: Rules, allow: map<string, string>, path: string, data: Bytes) {
    rules.vendored(path) && path in allow && rules.matches(data, allow[path])
  }

  function InFiles(name: string, number: nat, issues: seq<Issue>): seq<Finding> {
    seq(|issues|, i requires 0 <= i < |issues| => InFile(name, number, issues[i]))
  }

  function NameFindings(rules: Rules, name: string, number: nat, path: string): seq<Finding> {
    (if rules.forbidden(path) then [ForbiddenName(name, number)] else [])
    + (if rules.privateName(path) then [PrivateName(name, number)] else [])
  }

  function EntryFindings(
      rules: Rules, objects: map<Oid, Object>, allow: map<string, string>, name: string, number: nat, e: Entry)
      : seq<Finding>
    requires Inspected(e) ==> IsBlob(objects, e.oid)
  {
    NameFindings(rules, name, number, e.path)
    + if !Inspected(e) then [Uninspected(name, number)]
      else
        var data := objects[e.oid].data;
        if Exempt(rules, allow, e.path, data) then [] else InFiles(name, number, rules.scanBlob(e.path, data))
  }

  /** The findings in the first `n` files. */
  function FileFindings(
      rules: Rules, objects: map<Oid, Object>, allow: map<string, string>, name: string, files: seq<Entry>, n: nat)
      : seq<Finding>
    requires Present(objects, files) && n <= |files|
  {
    if n == 0 then []
    else
      FileFindings(rules, objects, allow, name, files, n - 1)
      + EntryFindings(rules, objects, allow, name, n, files[n - 1])
  }

  function MessageFindings(rules: Rules, s: Snapshot): seq<Finding> {
    match s.message
    case None => []
    case Some(m) =>
      var issues := rules.scanBlob("message.md", m);
      seq(|issues|, i requires 0 <= i < |issues| => InMessage(s.name, issues[i]))
  }

  /** Every file read and scanned, whatever was scanned before. */
  function PlainScan(rules: Rules, objects: map<Oid, Object>, s: Snapshot): Result<seq<Finding>, Error> {
    if Present(objects, s.files)
    then Ok(MessageFindings(rules, s)
            + FileFindings(rules, objects, Allowed(rules, objects, s.files), s.name, s.files, |s.files|))
    else Err(Missing)
  }

  function Prefixed(found: seq<Finding>, r: Result<seq<Finding>, Error>): Result<seq<Finding>, Error> {
    match r
    case Err(e) => Err(e)
    case Ok(more) => Ok(found + more)
  }

  /** The plain scans one after the other; the first failure ends them. */
  function PlainScans(rules: Rules, objects: map<Oid, Object>, snapshots: seq<Snapshot>): Result<seq<Finding>, Error> {
    if snapshots == [] then Ok([])
    else
      match PlainScan(rules, objects, snapshots[0])
      case Err(e) => Err(e)
      case Ok(first) => Prefixed(first, PlainScans(rules, objects, snapshots[1..]))
  }

  // ----- The scan with a cache

  type Key = (Oid, string)

  function BlobKey(e: Entry): Key { (e.oid, e.path) }

  type Cache = map<Key, seq<Issue>>

  /** Whatever is cached is what a scan of the blob of that name would give. */
  ghost predicate Sound(rules: Rules, objects: map<Oid, Object>, cache: Cache) {
    forall k | k in cache :: IsBlob(objects, k.0) && cache[k] == rules.scanBlob(k.1, objects[k.0].data)
  }

  /** As git has it: identifiers and kinds are single words. */
  predicate Repository(objects: map<Oid, Object>) {
    forall oid | oid in objects :: Word(objects[oid].kind)
  }

  predicate ValidFiles(files: seq<Entry>) {
    forall i | 0 <= i < |files| :: Word(files[i].oid)
  }

  ghost predicate Covers(cache: Cache, files: seq<Entry>, pending: seq<Oid>) {
    forall i | 0 <= i < |files| && Inspected(files[i]) :: BlobKey(files[i]) in cache || files[i].oid in pending
  }

  ghost predicate Asked(files: seq<Entry>, pending: seq<Oid>) {
    forall j | 0 <= j < |pending| :: exists i :: 0 <= i < |files| && Inspected(files[i]) && files[i].oid == pending[j]
  }

  method FindPending(cache: Cache, files: seq<Entry>) returns (pending: seq<Oid>)
    ensures Covers(cache, files, pending) && Asked(files, pending)
    ensures forall i, j | 0 <= i < j < |pending| :: pending[i] != pending[j]
  {
    pending := [];
    for n := 0 to |files|
      invariant Covers(cache, files[..n], pending) && Asked(files, pending)
      invariant forall i, j | 0 <= i < j < |pending| :: pending[i] != pending[j]
    {
      var e := files[n];
      assert files[..n + 1] == files[..n] + [e];
      if Inspected(e) && BlobKey(e) !in cache && e.oid !in pending {
        pending := pending + [e.oid];
      }
    }
    assert files[..|files|] == files;
  }

  /** What is cached was read once, so the files not read now are there as well. */
  lemma PendingDecides(rules: Rules, objects: map<Oid, Object>, cache: Cache, files: seq<Entry>, pending: seq<Oid>)
    requires Sound(rules, objects, cache) && Covers(cache, files, pending) && Asked(files, pending)
    ensures Readable(objects, pending) <==> Present(objects, files)
  {
    if Readable(objects, pending) {
      forall i | 0 <= i < |files| && Inspected(files[i]) ensures IsBlob(objects, files[i].oid) {
        assert BlobKey(files[i]) in cache || files[i].oid in pending;
      }
    }
  }

  lemma AskedAreWords(files: seq<Entry>, pending: seq<Oid>)
    requires ValidFiles(files) && Asked(files, pending)
    ensures forall j | 0 <= j < |pending| :: Word(pending[j])
  {
  }

  class Scanner {
    const rules: Rules
    const objects: map<Oid, Object>
    var cache: Cache

    ghost predicate Valid()
      reads this
    {
      Repository(objects) && Sound(rules, objects, cache)
    }

    constructor (rules: Rules, objects: map<Oid, Object>)
      requires Repository(objects)
      ensures Valid() && this.rules == rules && this.objects == objects && cache == map[]
    {
      this.rules, this.objects, cache := rules, objects, map[];
    }

    /** What one call of git gives for the blobs asked for. */
    method Fetch(oids: seq<Oid>) returns (r: Result<map<Oid, Bytes>, Error>)
      requires Repository(objects) && forall i | 0 <= i < |oids| :: Word(oids[i])
      ensures r == if Readable(objects, oids) then Ok(Contents(objects, oids)) else Err(Missing)
    {
      r := ReadBlobs(Batch(objects, oids), oids);
      BatchReadsBack(objects, oids);
    }

    /** A blob that was read with the others, or is read now. */
    method Content(blobs: map<Oid, Bytes>, oid: Oid) returns (r: Result<Bytes, Error>)
      requires Repository(objects) && Word(oid)
      requires forall o | o in blobs :: IsBlob(objects, o) && blobs[o] == objects[o].data
      ensures r == if IsBlob(objects, oid) then Ok(objects[oid].data) else Err(Missing)
    {
      if oid in blobs {
        return Ok(blobs[oid]);
      }
      var read := Fetch([oid]);
      if read.Err? {
        assert !IsBlob(objects, [oid][0]);
        return Err(read.error);
      }
      assert IsBlob(objects, [oid][0]);
      return Ok(read.value[oid]);
    }

    method ScanEntry(allow: map<string, string>, blobs: map<Oid, Bytes>, name: string, number: nat, e: Entry)
      returns (found: seq<Finding>)
      requires Valid() && Word(e.oid) && (Inspected(e) ==> IsBlob(objects, e.oid))
      requires forall o | o in blobs :: IsBlob(objects, o) && blobs[o] == objects[o].data
      requires Inspected(e) ==> BlobKey(e) in cache || e.oid in blobs
      modifies this
      ensures Valid() && old(cache.Keys) <= cache.Keys
      ensures found == EntryFindings(rules, objects, allow, name, number, e)
    {
      found := NameFindings(rules, name, number, e.path);
      if !Inspected(e) {
        found := found + [Uninspected(name, number)];
        return;
      }
      if rules.vendored(e.path) {
        var data := Content(blobs, e.oid);
        if e.path in allow && rules.matches(data.value, allow[e.path]) {
          assert found + [] == found;
          return;
        }
      }
      var key := BlobKey(e);
      if key !in cache {
        cache := cache[key := rules.scanBlob(e.path, blobs[e.oid])];
      }
      found := found + InFiles(name, number, cache[key]);
    }

    method ScanFiles(allow: map<string, string>, blobs: map<Oid, Bytes>, name: string, files: seq<Entry>)
      returns (found: seq<Finding>)
      requires Valid() && ValidFiles(files) && Present(objects, files)
      requires forall o | o in blobs :: IsBlob(objects, o) && blobs[o] == objects[o].data
      requires forall i | 0 <= i < |files| && Inspected(files[i]) :: BlobKey(files[i]) in cache || files[i].oid in blobs
      modifies this
      ensures Valid() && old(cache.Keys) <= cache.Keys
      ensures found == FileFindings(rules, objects, allow, name, files, |files|)
    {
      found := [];
      for n := 0 to |files|
        invariant Valid() && old(cache.Keys) <= cache.Keys
        invariant found == FileFindings(rules, objects, allow, name, files, n)
      {
        var more := ScanEntry(allow, blobs, name, n + 1, files[n]);
        found := found + more;
      }
    }

    method VendoredAllowlist(files: seq<Entry>, blobs: map<Oid, Bytes>) returns (allow: map<string, string>)
      requires Repository(objects) && ValidFiles(files) && Present(objects, files)
      requires forall o | o in blobs :: IsBlob(objects, o) && blobs[o] == objects[o].data
      ensures allow == Allowed(rules, objects, files)
    {
      var provenance := Manifest(rules, files);
      if provenance.None? {
        return map[];
      }
      var e := provenance.value;
      var i :| 0 <= i < |files| && files[i] == e;
      var data := Content(blobs, e.oid);
      return rules.listed(data.value);
    }

    /** The same findings, or the same failure, as the plain scan, from whatever
        was cached before; and no blob is looked up that was not read. */
    method ScanSnapshot(s: Snapshot) returns (r: Result<seq<Finding>, Error>)
      requires Valid() && ValidFiles(s.files)
      modifies this
      ensures Valid() && old(cache.Keys) <= cache.Keys
      ensures r == PlainScan(rules, objects, s)
    {
      var errors := MessageFindings(rules, s);
      var pending := FindPending(cache, s.files);
      AskedAreWords(s.files, pending);
      var read := Fetch(pending);
      PendingDecides(rules, objects, cache, s.files, pending);
      if read.Err? {
        return Err(read.error);
      }
      var blobs := read.value;
      var allow := VendoredAllowlist(s.files, blobs);
      var found := ScanFiles(allow, blobs, s.name, s.files);
      return Ok(errors + found);
    }
  }

  /** Each snapshot once, in the order of its first mention. */
  function Distinct(snapshots: seq<Snapshot>): (r: seq<Snapshot>)
    ensures forall s :: s in r <==> s in snapshots
    ensures forall i, j | 0 <= i < j < |r| :: r[i] != r[j]
  {
    if snapshots == [] then []
    else
      var n := |snapshots| - 1;
      var before := Distinct(snapshots[..n]);
      assert snapshots == snapshots[..n] + [snapshots[n]];
      if snapshots[n] in before then before else before + [snapshots[n]]
  }

  lemma DistinctValid(snapshots: seq<Snapshot>)
    requires forall i | 0 <= i < |snapshots| :: ValidFiles(snapshots[i].files)
    ensures forall i | 0 <= i < |Distinct(snapshots)| :: ValidFiles(Distinct(snapshots)[i].files)
  {
    forall i | 0 <= i < |Distinct(snapshots)| ensures ValidFiles(Distinct(snapshots)[i].files) {
      assert Distinct(snapshots)[i] in snapshots;
    }
  }

  /** A whole run with one shared cache reports exactly what the plain scans report. */
  method ScanAll(rules: Rules, objects: map<Oid, Object>, snapshots: seq<Snapshot>)
    returns (r: Result<seq<Finding>, Error>)
    requires Repository(objects) && forall i | 0 <= i < |snapshots| :: ValidFiles(snapshots[i].files)
    ensures r == PlainScans(rules, objects, Distinct(snapshots))
  {
    DistinctValid(snapshots);
    r := ScanEach(rules, objects, Distinct(snapshots));
  }

  method ScanEach(rules: Rules, objects: map<Oid, Object>, todo: seq<Snapshot>)
    returns (r: Result<seq<Finding>, Error>)
    requires Repository(objects) && forall i | 0 <= i < |todo| :: ValidFiles(todo[i].files)
    ensures r == PlainScans(rules, objects, todo)
  {
    var scanner := new Scanner(rules, objects);
    var errors: seq<Finding> := [];
    PrefixedNone(PlainScans(rules, objects, todo));
    for n := 0 to |todo|
      invariant scanner.Valid() && fresh(scanner) && scanner.rules == rules && scanner.objects == objects
      invariant Prefixed(errors, PlainScans(rules, objects, todo[n..])) == PlainScans(rules, objects, todo)
    {
      assert todo[n..][1..] == todo[n + 1..];
      var scanned := scanner.ScanSnapshot(todo[n]);
      if scanned.Err? {
        return Err(scanned.error);
      }
      PrefixedTwice(errors, scanned.value, PlainScans(rules, objects, todo[n + 1..]));
      errors := errors + scanned.value;
    }
    assert errors + [] == errors;
    return Ok(errors);
  }

  lemma PrefixedNone(r: Result<seq<Finding>, Error>)
    ensures Prefixed([], r) == r
  {
    if r.Ok? {
      assert [] + r.value == r.value;
    }
  }

  lemma PrefixedTwice(a: seq<Finding>, b: seq<Finding>, r: Result<seq<Finding>, Error>)
    ensures Prefixed(a, Prefixed(b, r)) == Prefixed(a + b, r)
  {
    if r.Ok? {
      assert a + (b + r.value) == a + b + r.value;
    }
  }
}
