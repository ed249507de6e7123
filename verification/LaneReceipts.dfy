/** The receipts of all lanes verified together: every test of every target has
    passed in exactly one lane. */
module LaneReceipts {
  import opened Wrappers
  import opened Ordinal
  import opened Lanes

  datatype Facts = Facts(description: Description, features: seq<string>, tests: seq<string>)

  type Digest = (string, map<string, Facts>) -> string

  datatype Receipt = Receipt(
    version: int, source: string, suite: string, lane: string, workspace: string,
    records: Records, doctests: bool, digest: string)

  /** What a verification expects of every receipt. */
  datatype Expected = Expected(suite: string, source: string, workspace: string, targets: Targets)

  ghost predicate Injective(digest: Digest) {
    forall w, a, b :: digest(w, a) == digest(w, b) ==> a == b
  }

  function Inventoried(records: Records): map<string, Facts> {
    map key | key in records :: Facts(records[key].description, records[key].features, records[key].tests)
  }

  predicate Sealed(digest: Digest, r: Receipt) { r.digest == digest(r.workspace, Inventoried(r.records)) }

  ghost predicate ValidReceipt(hash: Hash, x: Expected, r: Receipt) {
    && r.version == 2 && r.source == x.source && r.suite == x.suite && r.workspace == x.workspace
    && ValidRecords(hash, x.suite, r.lane, x.targets, r.records)
    && r.doctests == (x.suite == "default" && r.lane == "remaining")
  }

  function LanesOf(receipts: seq<Receipt>): seq<string> {
    seq(|receipts|, i requires 0 <= i < |receipts| => receipts[i].lane)
  }

  /** All checks but the last. */
  ghost predicate Accepted(hash: Hash, digest: Digest, x: Expected, receipts: seq<Receipt>) {
    && |receipts| == |LANES| && Elements(LanesOf(receipts)) == Elements(LANES)
    && (forall i | 0 <= i < |receipts| :: ValidReceipt(hash, x, receipts[i]))
    && (forall i | 0 <= i < |receipts| :: Sealed(digest, receipts[i]))
    && (forall i | 0 <= i < |receipts| :: receipts[i].digest == receipts[0].digest)
  }

  // ----- The lanes split every inventory

  /** The shares of the lanes, one after the other. */
  function Shares(hash: Hash, package: string, tests: seq<string>, lanes: seq<string>): seq<string> {
    if lanes == [] then []
    else
      var n := |lanes| - 1;
      Shares(hash, package, tests, lanes[..n]) + Assigned(hash, package, tests, lanes[n])
  }

  lemma {:induction false} SharesCount(hash: Hash, package: string, tests: seq<string>, lanes: seq<string>, name: string)
    requires Increasing(tests) && NoRepeats(lanes)
    ensures multiset(Shares(hash, package, tests, lanes))[name]
         == if name in tests && LaneOf(hash, package, name) in lanes then 1 else 0
  {
    if lanes != [] {
      var n := |lanes| - 1;
      SharesCount(hash, package, tests, lanes[..n], name);
      AssignedCounts(hash, package, tests, lanes[n], name);
      LastDiffers(lanes);
      assert lanes == lanes[..n] + [lanes[n]];
    }
  }

  lemma LastDiffers(xs: seq<string>)
    requires xs != [] && NoRepeats(xs)
    ensures xs[|xs| - 1] !in xs[..|xs| - 1] && NoRepeats(xs[..|xs| - 1])
  {
  }

  /** All lanes, once each and in any order: their shares together are exactly
      the inventory, nothing twice and nothing left. */
  lemma SharesAreEverything(hash: Hash, package: string, tests: seq<string>, lanes: seq<string>)
    requires Increasing(tests) && NoRepeats(lanes) && Elements(lanes) == Elements(LANES)
    ensures multiset(Shares(hash, package, tests, lanes)) == multiset(tests)
    ensures Sort(Shares(hash, package, tests, lanes)) == tests && NoRepeats(Shares(hash, package, tests, lanes))
  {
    var shares := Shares(hash, package, tests, lanes);
    forall name ensures multiset(shares)[name] == multiset(tests)[name] {
      SharesCount(hash, package, tests, lanes, name);
      IncreasingCounts(tests, name);
      assert LaneOf(hash, package, name) in Elements(LANES);
    }
    SortOf(shares, tests);
    CountedOnce(shares, tests);
  }

  // ----- Six receipts for six lanes are one each

  lemma LanesDiffer()
    ensures NoRepeats(LANES)
  {
    assert forall i | 1 <= i < 5 :: |LANES[i]| == 8;
    assert LANES[1][7] == '0' && LANES[2][7] == '1' && LANES[3][7] == '2' && LANES[4][7] == '3';
  }

  lemma OneReceiptEach(lanes: seq<string>)
    requires |lanes| == |LANES| && Elements(lanes) == Elements(LANES)
    ensures NoRepeats(lanes)
  {
    LanesDiffer();
    Cardinality(LANES);
    Cardinality(lanes);
  }

  // ----- The last check

  function Passed(receipts: seq<Receipt>, key: string): seq<string>
    requires forall i | 0 <= i < |receipts| :: key in receipts[i].records
  {
    if receipts == [] then []
    else
      var n := |receipts| - 1;
      Passed(receipts[..n], key) + receipts[n].records[key].passed
  }

  lemma {:induction false} PassedAreShares(hash: Hash, package: string, tests: seq<string>, receipts: seq<Receipt>, key: string)
    requires forall i | 0 <= i < |receipts| ::
               && key in receipts[i].records
               && receipts[i].records[key].passed == Assigned(hash, package, tests, receipts[i].lane)
    ensures Passed(receipts, key) == Shares(hash, package, tests, LanesOf(receipts))
  {
    if receipts != [] {
      var n := |receipts| - 1;
      PassedAreShares(hash, package, tests, receipts[..n], key);
      assert LanesOf(receipts)[..n] == LanesOf(receipts[..n]);
    }
  }

  /** Equal digests: the lanes saw the same tests. */
  lemma SameTests(hash: Hash, digest: Digest, x: Expected, receipts: seq<Receipt>, key: string, i: nat)
    requires Accepted(hash, digest, x, receipts) && Injective(digest) && key in x.targets && i < |receipts|
    ensures key in receipts[i].records && key in receipts[0].records
    ensures receipts[i].records[key].tests == receipts[0].records[key].tests
    ensures receipts[i].records[key].passed
         == Assigned(hash, x.targets[key].package, receipts[0].records[key].tests, receipts[i].lane)
  {
    assert ValidReceipt(hash, x, receipts[i]) && ValidReceipt(hash, x, receipts[0]);
    assert Sealed(digest, receipts[i]) && Sealed(digest, receipts[0]);
    var a, b := Inventoried(receipts[i].records), Inventoried(receipts[0].records);
    assert digest(x.workspace, a) == digest(x.workspace, b);
    assert a[key] == b[key];
    assert ValidRecord(hash, x.suite, receipts[i].lane, x.targets[key], receipts[i].records[key]);
  }

  predicate Complete(receipts: seq<Receipt>, key: string)
    requires receipts != [] && forall i | 0 <= i < |receipts| :: key in receipts[i].records
  {
    NoRepeats(Passed(receipts, key)) && Sort(Passed(receipts, key)) == receipts[0].records[key].tests
  }

  /** The last check never fails once the others have passed. */
  lemma UnionIsImplied(hash: Hash, digest: Digest, x: Expected, receipts: seq<Receipt>, key: string)
    requires Accepted(hash, digest, x, receipts) && Injective(digest) && key in x.targets
    ensures forall i | 0 <= i < |receipts| :: key in receipts[i].records
    ensures Complete(receipts, key)
  {
    forall i | 0 <= i < |receipts|
      ensures && key in receipts[i].records
              && receipts[i].records[key].passed
                 == Assigned(hash, x.targets[key].package, receipts[0].records[key].tests, receipts[i].lane)
    {
      SameTests(hash, digest, x, receipts, key, i);
    }
    var tests := receipts[0].records[key].tests;
    assert ValidRecord(hash, x.suite, receipts[0].lane, x.targets[key], receipts[0].records[key]) by {
      assert ValidReceipt(hash, x, receipts[0]);
    }
    OneReceiptEach(LanesOf(receipts));
    PassedAreShares(hash, x.targets[key].package, tests, receipts, key);
    SharesAreEverything(hash, x.targets[key].package, tests, LanesOf(receipts));
  }

  // ----- Every test passed in one lane

  /** The target's test `name` passed in receipt `i` and in no other. */
  ghost predicate PassesOnlyAt(receipts: seq<Receipt>, key: string, name: string, i: nat)
    requires forall j | 0 <= j < |receipts| :: key in receipts[j].records
  {
    forall j | 0 <= j < |receipts| :: name in receipts[j].records[key].passed <==> j == i
  }

  ghost predicate PassesNowhere(receipts: seq<Receipt>, key: string, name: string)
    requires forall j | 0 <= j < |receipts| :: key in receipts[j].records
  {
    forall j | 0 <= j < |receipts| :: name !in receipts[j].records[key].passed
  }

  lemma PartsRepeatNothing(a: seq<string>, b: seq<string>, name: string)
    requires NoRepeats(a + b)
    ensures NoRepeats(a) && (name in a ==> name !in b)
  {
    forall i, j | 0 <= i < j < |a| ensures a[i] != a[j] {
      assert (a + b)[i] == a[i] && (a + b)[j] == a[j];
    }
    forall i, j | 0 <= i < |a| && 0 <= j < |b| ensures a[i] != b[j] {
      assert (a + b)[i] == a[i] && (a + b)[|a| + j] == b[j];
    }
  }

  lemma {:induction false} PassesOnce(receipts: seq<Receipt>, key: string, name: string) returns (i: nat)
    requires forall j | 0 <= j < |receipts| :: key in receipts[j].records
    requires NoRepeats(Passed(receipts, key))
    ensures if name in Passed(receipts, key) then i < |receipts| && PassesOnlyAt(receipts, key, name, i)
            else PassesNowhere(receipts, key, name)
    decreases |receipts|
  {
    i := 0;
    if receipts != [] {
      var n := |receipts| - 1;
      var before, last := Passed(receipts[..n], key), receipts[n].records[key].passed;
      PartsRepeatNothing(before, last, name);
      i := PassesOnce(receipts[..n], key, name);
      if name in last {
        i := n;
      }
    }
  }

  /** All checks, the last among them. */
  ghost predicate Verified(hash: Hash, digest: Digest, x: Expected, receipts: seq<Receipt>) {
    && Accepted(hash, digest, x, receipts)
    && (forall i | 0 <= i < |receipts| :: receipts[i].records.Keys == x.targets.Keys)
    && (forall key | key in x.targets :: Complete(receipts, key))
  }

  lemma CompleteIsInventory(receipts: seq<Receipt>, key: string, name: string)
    requires receipts != [] && (forall i | 0 <= i < |receipts| :: key in receipts[i].records) && Complete(receipts, key)
    ensures name in Passed(receipts, key) <==> name in receipts[0].records[key].tests
  {
    var passed := Passed(receipts, key);
    SortKeeps(passed);
    assert name in passed <==> name in multiset(passed);
    assert name in Sort(passed) <==> name in multiset(Sort(passed));
  }

  lemma PassedInOwnLane(hash: Hash, x: Expected, r: Receipt, key: string, name: string)
    requires ValidReceipt(hash, x, r) && key in x.targets && key in r.records && name in r.records[key].passed
    ensures r.lane == LaneOf(hash, x.targets[key].package, name)
  {
    assert ValidRecord(hash, x.suite, r.lane, x.targets[key], r.records[key]);
    AssignedExactly(hash, x.targets[key].package, r.records[key].tests, r.lane, name);
  }

  /** Verified receipts, whatever the digest: every test of a target passed in its
      own lane and in no other, and nothing passed that is not a test of it. */
  lemma EveryTestPassesOnce(hash: Hash, digest: Digest, x: Expected, receipts: seq<Receipt>, key: string, name: string)
    returns (i: nat)
    requires Verified(hash, digest, x, receipts) && key in x.targets
    ensures forall j | 0 <= j < |receipts| :: key in receipts[j].records
    ensures if name in receipts[0].records[key].tests
            then && i < |receipts| && PassesOnlyAt(receipts, key, name, i)
                 && receipts[i].lane == LaneOf(hash, x.targets[key].package, name)
            else PassesNowhere(receipts, key, name)
  {
    CompleteIsInventory(receipts, key, name);
    i := PassesOnce(receipts, key, name);
    if name in receipts[0].records[key].tests {
      assert name in receipts[i].records[key].passed;
      PassedInOwnLane(hash, x, receipts[i], key, name);
    }
  }

  // ----- The verification itself

  method CheckReceipt(hash: Hash, x: Expected, r: Receipt) returns (ok: bool)
    ensures ok <==> ValidReceipt(hash, x, r)
  {
    if r.version != 2 || r.source != x.source || r.suite != x.suite || r.workspace != x.workspace {
      return false;
    }
    ok := ValidateRecords(hash, x.suite, r.lane, x.targets, r.records);
    ok := ok && r.doctests == (x.suite == "default" && r.lane == "remaining");
  }

  method CheckUnions(receipts: seq<Receipt>, targets: Targets) returns (ok: bool)
    requires receipts != [] && forall i | 0 <= i < |receipts| :: receipts[i].records.Keys == targets.Keys
    ensures ok <==> forall key | key in targets :: Complete(receipts, key)
  {
    var left := targets.Keys;
    while left != {}
      invariant left <= targets.Keys
      invariant forall key | key in targets && key !in left :: Complete(receipts, key)
      decreases |left|
    {
      var key :| key in left;
      if !Complete(receipts, key) {
        return false;
      }
      left := left - {key};
    }
    return true;
  }

  method CheckEach(hash: Hash, x: Expected, receipts: seq<Receipt>) returns (ok: bool)
    ensures ok <==> forall i | 0 <= i < |receipts| :: ValidReceipt(hash, x, receipts[i])
  {
    for i := 0 to |receipts|
      invariant forall j | 0 <= j < i :: ValidReceipt(hash, x, receipts[j])
    {
      ok := CheckReceipt(hash, x, receipts[i]);
      if !ok {
        return;
      }
    }
    ok := true;
  }

  method CheckSeals(digest: Digest, receipts: seq<Receipt>) returns (ok: bool, inventories: set<string>)
    ensures ok <==> forall i | 0 <= i < |receipts| :: Sealed(digest, receipts[i])
    ensures ok ==> inventories == Digests(receipts, |receipts|)
  {
    inventories := {};
    for i := 0 to |receipts|
      invariant forall j | 0 <= j < i :: Sealed(digest, receipts[j])
      invariant inventories == Digests(receipts, i)
    {
      if !Sealed(digest, receipts[i]) {
        return false, {};
      }
      inventories := inventories + {receipts[i].digest};
    }
    ok := true;
  }

  function Digests(receipts: seq<Receipt>, n: nat): set<string>
    requires n <= |receipts|
  {
    if n == 0 then {} else Digests(receipts, n - 1) + {receipts[n - 1].digest}
  }

  lemma {:induction false} DigestsAre(receipts: seq<Receipt>, n: nat)
    requires n <= |receipts|
    ensures forall j | 0 <= j < n :: receipts[j].digest in Digests(receipts, n)
    ensures forall d :: (forall j | 0 <= j < n :: receipts[j].digest == d) ==> Digests(receipts, n) <= {d}
  {
    if n > 0 {
      DigestsAre(receipts, n - 1);
    }
  }

  lemma OneDigest(receipts: seq<Receipt>)
    requires receipts != []
    ensures |Digests(receipts, |receipts|)| == 1 <==>
              forall i | 0 <= i < |receipts| :: receipts[i].digest == receipts[0].digest
  {
    var digests := Digests(receipts, |receipts|);
    DigestsAre(receipts, |receipts|);
    if forall i | 0 <= i < |receipts| :: receipts[i].digest == receipts[0].digest {
      assert digests == {receipts[0].digest};
    }
    if |digests| == 1 {
      var d :| d in digests;
      assert |digests - {d}| == 0;
      forall i | 0 <= i < |receipts| ensures receipts[i].digest == d {
        assert receipts[i].digest in digests;
        assert receipts[i].digest !in digests - {d};
      }
    }
  }

  lemma UnionsAreImplied(hash: Hash, digest: Digest, x: Expected, receipts: seq<Receipt>)
    requires Accepted(hash, digest, x, receipts) && Injective(digest)
    requires forall i | 0 <= i < |receipts| :: receipts[i].records.Keys == x.targets.Keys
    ensures forall key | key in x.targets :: Complete(receipts, key)
  {
    forall key | key in x.targets ensures Complete(receipts, key) {
      UnionIsImplied(hash, digest, x, receipts, key);
    }
  }

  lemma SameKeys(hash: Hash, x: Expected, receipts: seq<Receipt>)
    requires forall i | 0 <= i < |receipts| :: ValidReceipt(hash, x, receipts[i])
    ensures forall i | 0 <= i < |receipts| :: receipts[i].records.Keys == x.targets.Keys
  {
    forall i | 0 <= i < |receipts| ensures receipts[i].records.Keys == x.targets.Keys {
      assert ValidReceipt(hash, x, receipts[i]);
    }
  }

  method CheckAllButLast(hash: Hash, digest: Digest, x: Expected, receipts: seq<Receipt>) returns (ok: bool)
    ensures ok <==> Accepted(hash, digest, x, receipts)
  {
    if |receipts| != |LANES| || Elements(LanesOf(receipts)) != Elements(LANES) {
      return false;
    }
    var valid := CheckEach(hash, x, receipts);
    var sealed, inventories := CheckSeals(digest, receipts);
    if !valid || !sealed {
      return false;
    }
    OneDigest(receipts);
    return |inventories| == 1;
  }

  /** Succeeds exactly if every check does; with an injective digest the last one
      is implied by the others. */
  method VerifyReceipts(hash: Hash, digest: Digest, x: Expected, receipts: seq<Receipt>) returns (ok: bool)
    ensures ok <==> Verified(hash, digest, x, receipts)
    ensures Injective(digest) && Accepted(hash, digest, x, receipts) ==> ok
  {
    ok := CheckAllButLast(hash, digest, x, receipts);
    if !ok {
      return;
    }
    SameKeys(hash, x, receipts);
    if Injective(digest) {
      UnionsAreImplied(hash, digest, x, receipts);
    }
    ok := CheckUnions(receipts, x.targets);
  }
}
