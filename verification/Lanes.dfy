/** Test lanes: which lane owns which test, the receipt each lane writes, and the
    verification of all receipts together. */
module Lanes {
  import opened Wrappers
  import opened Ordinal
  import opened Decimals

  const SERVER := "zrotext-server"
  const STORE := "zrotext-delivery-store"
  const SERVER_LANES := ["server-0", "server-1", "server-2", "server-3"]
  const LANES := ["delivery-store", "server-0", "server-1", "server-2", "server-3", "remaining"]
  const SUITES := ["default", "conversation"]
  const SIMULATOR := "conversation-simulator-tests"

  /** The first byte of a name's digest; the rest holds for every function. */
  type Hash = string -> nat

  // ----- Which lane owns a test

  function LanesFor(package: string): seq<string> {
    if package == SERVER then SERVER_LANES
    else if package == STORE then ["delivery-store"]
    else ["remaining"]
  }

  function Selected(hash: Hash, tests: seq<string>, lane: string): seq<string> {
    if tests == [] then []
    else
      var n := |tests| - 1;
      Selected(hash, tests[..n], lane)
      + if SERVER_LANES[hash(tests[n]) % |SERVER_LANES|] == lane then [tests[n]] else []
  }

  function Assigned(hash: Hash, package: string, tests: seq<string>, lane: string): seq<string> {
    if lane !in LanesFor(package) then []
    else if package == SERVER then Selected(hash, tests, lane)
    else tests
  }

  /** The one lane of a test. */
  function LaneOf(hash: Hash, package: string, name: string): (lane: string)
    ensures lane in LANES && lane in LanesFor(package)
  {
    if package == SERVER then
      var lane := SERVER_LANES[hash(name) % |SERVER_LANES|];
      assert lane in ["server-0", "server-1", "server-2", "server-3"];
      lane
    else LanesFor(package)[0]
  }

  lemma {:induction false} SelectedExactly(hash: Hash, tests: seq<string>, lane: string, name: string)
    ensures name in Selected(hash, tests, lane) <==>
              name in tests && SERVER_LANES[hash(name) % |SERVER_LANES|] == lane
  {
    if tests != [] {
      var n := |tests| - 1;
      SelectedExactly(hash, tests[..n], lane, name);
      assert tests == tests[..n] + [tests[n]];
    }
  }

  /** A lane is assigned exactly its own tests: the lanes split every inventory
      between them, and another test in the inventory changes nothing. */
  lemma AssignedExactly(hash: Hash, package: string, tests: seq<string>, lane: string, name: string)
    ensures name in Assigned(hash, package, tests, lane) <==> name in tests && lane == LaneOf(hash, package, name)
  {
    SelectedExactly(hash, tests, lane, name);
  }

  lemma AssignmentIsStable(hash: Hash, package: string, tests: seq<string>, more: seq<string>, lane: string, name: string)
    requires name in tests && name in more
    ensures name in Assigned(hash, package, tests, lane) <==> name in Assigned(hash, package, more, lane)
  {
    AssignedExactly(hash, package, tests, lane, name);
    AssignedExactly(hash, package, more, lane, name);
  }

  lemma {:induction false} SelectedIncreasing(hash: Hash, tests: seq<string>, lane: string)
    requires Increasing(tests)
    ensures Increasing(Selected(hash, tests, lane))
  {
    if tests != [] {
      var n := |tests| - 1;
      SelectedIncreasing(hash, tests[..n], lane);
      var before := Selected(hash, tests[..n], lane);
      forall i | 0 <= i < |before| ensures Less(before[i], tests[n]) {
        SelectedExactly(hash, tests[..n], lane, before[i]);
        var k :| 0 <= k < n && tests[k] == before[i];
      }
    }
  }

  lemma AssignedCounts(hash: Hash, package: string, tests: seq<string>, lane: string, name: string)
    requires Increasing(tests)
    ensures multiset(Assigned(hash, package, tests, lane))[name]
         == if name in tests && lane == LaneOf(hash, package, name) then 1 else 0
  {
    SelectedIncreasing(hash, tests, lane);
    IncreasingCounts(Assigned(hash, package, tests, lane), name);
    AssignedExactly(hash, package, tests, lane, name);
  }

  // ----- The record of one target

  datatype Description = Description(package: string, target: string)

  datatype Record = Record(
    description: Description, features: seq<string>, tests: seq<string>,
    allotted: seq<string>, executed: bool, passed: seq<string>)

  type Targets = map<string, Description>
  type Records = map<string, Record>

  predicate Owned(hash: Hash, package: string, tests: seq<string>, lane: string) {
    lane in LanesFor(package) && (package != SERVER || Assigned(hash, package, tests, lane) != [])
  }

  predicate NamedTests(tests: seq<string>) {
    forall i | 0 <= i < |tests| :: tests[i] != "" && '\n' !in tests[i]
  }

  predicate ValidRecord(hash: Hash, suite: string, lane: string, target: Description, item: Record) {
    && item.description == target
    && NamedTests(item.tests) && Increasing(item.tests)
    && Increasing(item.features)
    && (target.package == SERVER ==> (SIMULATOR in item.features) == (suite == "conversation"))
    && item.allotted == Assigned(hash, target.package, item.tests, lane)
    && item.executed == Owned(hash, target.package, item.tests, lane)
    && item.passed == item.allotted
  }

  datatype Error = DifferentFilter | DifferentTests | WrongSummary

  /** What the test harness reports: the tests its exact filters select, the tests
      that passed in whatever order, and the numbers in its summary lines. */
  datatype Harness = Harness(selected: seq<string>, passed: seq<string>, summaries: seq<string>, running: seq<string>)

  /** The record a lane writes, from the inventory and, where it executes the
      target, from what the harness reports. */
  function Dispatched(
      hash: Hash, lane: string, target: Description, features: seq<string>, tests: seq<string>, h: Harness)
      : Result<Record, Error>
  {
    var allotted := Assigned(hash, target.package, tests, lane);
    var count := Decimal(|allotted|);
    if !Owned(hash, target.package, tests, lane) then Ok(Record(target, features, tests, allotted, false, []))
    else if target.package == SERVER && h.selected != allotted then Err(DifferentFilter)
    else if Sort(h.passed) != allotted || !NoRepeats(h.passed) then Err(DifferentTests)
    else if h.summaries != [count] || h.running != [count] then Err(WrongSummary)
    else Ok(Record(target, features, tests, allotted, true, Sort(h.passed)))
  }

  /** Every assigned test passed, each once, and the harness counts them all. */
  predicate Reports(package: string, allotted: seq<string>, h: Harness) {
    && multiset(h.passed) == multiset(allotted)
    && h.summaries == [Decimal(|allotted|)] && h.running == [Decimal(|allotted|)]
    && (package == SERVER ==> h.selected == allotted)
  }

  /** A lane that executes a target writes a record exactly if every test
      assigned to it passed once, and every record written is valid. */
  lemma DispatchedIsValid(
      hash: Hash, suite: string, lane: string, target: Description, features: seq<string>, tests: seq<string>, h: Harness)
    requires NamedTests(tests) && Increasing(tests) && Increasing(features)
    requires target.package == SERVER ==> (SIMULATOR in features) == (suite == "conversation")
    ensures var r := Dispatched(hash, lane, target, features, tests, h);
            && (r.Ok? ==> ValidRecord(hash, suite, lane, target, r.value))
            && (r.Ok? <==> (Owned(hash, target.package, tests, lane) ==>
                              Reports(target.package, Assigned(hash, target.package, tests, lane), h)))
  {
    var allotted := Assigned(hash, target.package, tests, lane);
    SelectedIncreasing(hash, tests, lane);
    SortKeeps(h.passed);
    if multiset(h.passed) == multiset(allotted) {
      SortOf(h.passed, allotted);
      CountedOnce(h.passed, allotted);
    }
  }

  lemma CountedOnce(xs: seq<string>, sorted: seq<string>)
    requires Increasing(sorted) && multiset(xs) == multiset(sorted)
    ensures NoRepeats(xs)
  {
    forall i, j | 0 <= i < j < |xs| ensures xs[i] != xs[j] {
      IncreasingCounts(sorted, xs[i]);
      if xs[i] == xs[j] {
        Twice(xs, i, j);
      }
    }
  }

  lemma Twice(xs: seq<string>, i: nat, j: nat)
    requires i < j < |xs| && xs[i] == xs[j]
    ensures multiset(xs)[xs[i]] >= 2
  {
    assert xs == xs[..i] + [xs[i]] + xs[i + 1..j] + [xs[j]] + xs[j + 1..];
  }

  ghost predicate ValidRecords(hash: Hash, suite: string, lane: string, targets: Targets, records: Records) {
    && suite in SUITES && lane in LANES
    && records.Keys == targets.Keys
    && (forall key | key in targets :: ValidRecord(hash, suite, lane, targets[key], records[key]))
    && (exists key :: key in targets && records[key].allotted != [])
  }

  method ValidateRecords(hash: Hash, suite: string, lane: string, targets: Targets, records: Records)
    returns (ok: bool)
    ensures ok <==> ValidRecords(hash, suite, lane, targets, records)
  {
    if suite !in SUITES || lane !in LANES || records.Keys != targets.Keys {
      return false;
    }
    var total, left := 0, targets.Keys;
    while left != {}
      invariant left <= targets.Keys && total >= 0
      invariant forall key | key in targets && key !in left :: ValidRecord(hash, suite, lane, targets[key], records[key])
      invariant total > 0 <==> exists key :: key in targets && key !in left && records[key].allotted != []
      decreases |left|
    {
      var key :| key in left;
      if !ValidRecord(hash, suite, lane, targets[key], records[key]) {
        return false;
      }
      left := left - {key};
      assert total > 0 ==> exists k :: k in targets && k !in left && records[k].allotted != [];
      total := total + |records[key].allotted|;
    }
    return total > 0;
  }
}
