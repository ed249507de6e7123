/** Prerequisites of roadmap capabilities: a depth-first visit that collects the
    upstream closure and raises on a cycle, and the validation built on it. */
module Roadmap {
  import opened Wrappers
  import opened Graphs
  import opened TextLines

  /** `(source, target)`: the target needs the source. */
  type Dependencies = seq<(Id, Id)>

  /** The direct requirements of a capability, in the order they are listed. */
  function Upstream(deps: Dependencies, c: Id): seq<Id> {
    if deps == [] then []
    else
      var rest := Upstream(deps[..|deps| - 1], c);
      if deps[|deps| - 1].1 == c then rest + [deps[|deps| - 1].0] else rest
  }

  lemma {:induction false} UpstreamIsListed(deps: Dependencies, c: Id, x: Id)
    ensures x in Upstream(deps, c) <==> (x, c) in deps
  {
    if deps != [] {
      UpstreamIsListed(deps[..|deps| - 1], c, x);
      assert deps == deps[..|deps| - 1] + [deps[|deps| - 1]];
    }
  }

  /** Dependencies as a graph that leads from a capability to what it needs. */
  ghost function Up(deps: Dependencies): Graph {
    c => set x | x in Upstream(deps, c)
  }

  /** No capability in the set lies on a cycle. */
  ghost predicate Acyclic(succ: Graph, s: set<Id>) {
    forall x | x in s :: !Needs(succ, x, x)
  }

  /** One of the listed capabilities is, or needs, `x`. */
  ghost predicate ReachedFrom(succ: Graph, from: seq<Id>, x: Id) {
    exists c :: c in from && Reaches(succ, c, x)
  }

  lemma ReachedFromOneMore(succ: Graph, from: seq<Id>, c: Id, x: Id)
    ensures ReachedFrom(succ, from + [c], x) <==> ReachedFrom(succ, from, x) || Reaches(succ, c, x)
  {
    if ReachedFrom(succ, from, x) {
      var d :| d in from && Reaches(succ, d, x);
      assert d in from + [c];
    }
    assert c in from + [c];
  }

  lemma ReachesThroughParents(deps: Dependencies, c: Id, x: Id)
    ensures Reaches(Up(deps), c, x) <==> x == c || ReachedFrom(Up(deps), Upstream(deps, c), x)
  {
    ReachesUnfold(Up(deps), c, x);
  }

  class Visitor {
    const deps: Dependencies
    var result: set<Id>
    var visiting: set<Id>

    constructor (deps: Dependencies)
      ensures this.deps == deps && result == {} && visiting == {}
    {
      this.deps := deps;
      result, visiting := {}, {};
    }

    ghost predicate Valid()
      reads this
    {
      Closed(Up(deps), result) && Acyclic(Up(deps), result) && result !! visiting
    }

    /** `nodes` bounds the recursion: it is closed, and what is being visited
        lies in it. A failed visit is the raised error. */
    method Visit(c: Id, ghost nodes: set<Id>) returns (ok: bool)
      requires Valid() && Closed(Up(deps), nodes) && c in nodes && visiting <= nodes
      requires forall v | v in visiting :: Needs(Up(deps), v, c)
      modifies this
      ensures ok ==> Valid() && visiting == old(visiting)
      ensures ok ==> forall x :: x in result <==> x in old(result) || Reaches(Up(deps), c, x)
      ensures !ok ==> CycleAbove(Up(deps), c)
      decreases nodes - visiting
    {
      ReachesSelf(Up(deps), c);
      if c in visiting {
        return false;
      }
      if c in result {
        forall x | Reaches(Up(deps), c, x) ensures x in result {
          ClosedReaches(Up(deps), result, c, x);
        }
        return true;
      }
      visiting := visiting + {c};
      var parents := Upstream(deps, c);
      var i := 0;
      while i < |parents|
        invariant 0 <= i <= |parents|
        invariant Valid() && visiting == old(visiting) + {c}
        invariant forall x :: x in result <==> x in old(result) || ReachedFrom(Up(deps), parents[..i], x)
      {
        forall v | v in visiting ensures Needs(Up(deps), v, parents[i]) {
          EdgeNeeds(deps, v, c, parents[i]);
        }
        var done := Visit(parents[i], nodes);
        if !done {
          CycleAboveParent(deps, c, parents[i]);
          return false;
        }
        forall x ensures ReachedFrom(Up(deps), parents[..i + 1], x)
                         <==> ReachedFrom(Up(deps), parents[..i], x) || Reaches(Up(deps), parents[i], x) {
          ReachedFromOneMore(Up(deps), parents[..i], parents[i], x);
          assert parents[..i + 1] == parents[..i] + [parents[i]];
        }
        i := i + 1;
      }
      assert parents[..i] == parents;
      forall x ensures Reaches(Up(deps), c, x) <==> x == c || ReachedFrom(Up(deps), parents, x) {
        ReachesThroughParents(deps, c, x);
      }
      forall x | x in parents ensures x in result {
        ReachesSelf(Up(deps), x);
        assert ReachedFrom(Up(deps), parents, x);
      }
      CompletedVisit(deps, c, result);
      visiting := visiting - {c};
      result := result + {c};
      return true;
    }
  }

  lemma EdgeNeeds(deps: Dependencies, v: Id, c: Id, parent: Id)
    requires (v == c || Needs(Up(deps), v, c)) && parent in Upstream(deps, c)
    ensures Needs(Up(deps), v, parent)
  {
    if v == c {
      ReachesSelf(Up(deps), parent);
      ReachesStep(Up(deps), c, parent, parent);
    } else {
      NeedsThenEdge(Up(deps), v, c, parent);
    }
  }

  lemma CycleAboveParent(deps: Dependencies, c: Id, parent: Id)
    requires parent in Upstream(deps, c) && CycleAbove(Up(deps), parent)
    ensures CycleAbove(Up(deps), c)
  {
    var b :| Reaches(Up(deps), parent, b) && Needs(Up(deps), b, b);
    ReachesStep(Up(deps), c, parent, b);
  }

  /** With every requirement of `c` collected and `c` itself not among them, `c`
      completes the collection. */
  lemma CompletedVisit(deps: Dependencies, c: Id, s: set<Id>)
    requires Closed(Up(deps), s) && Acyclic(Up(deps), s) && c !in s
    requires forall x | x in Upstream(deps, c) :: x in s
    ensures Closed(Up(deps), s + {c}) && Acyclic(Up(deps), s + {c})
  {
    if Needs(Up(deps), c, c) {
      var x :| x in Upstream(deps, c) && Reaches(Up(deps), x, c);
      ClosedReaches(Up(deps), s, x, c);
    }
  }

  ghost function Nodes(deps: Dependencies, required: seq<Id>): set<Id> {
    (set d | d in deps :: d.0) + (set c | c in required)
  }

  lemma NodesClosed(deps: Dependencies, required: seq<Id>)
    ensures Closed(Up(deps), Nodes(deps, required))
  {
    forall x, y | x in Nodes(deps, required) && y in Upstream(deps, x) ensures y in Nodes(deps, required) {
      UpstreamIsListed(deps, x, y);
      assert (y, x) in deps;
    }
  }

  /** The upstream closure of the listed capabilities, or the error that a cycle
      lies above one of them; on every list of dependencies, cyclic or not. */
  method Prerequisites(deps: Dependencies, required: seq<Id>) returns (r: Result<set<Id>, ()>)
    ensures r.Ok? <==> forall c | c in required :: !CycleAbove(Up(deps), c)
    ensures r.Ok? ==> forall x :: x in r.value <==> ReachedFrom(Up(deps), required, x)
  {
    var v := new Visitor(deps);
    ghost var nodes := Nodes(deps, required);
    NodesClosed(deps, required);
    var i := 0;
    while i < |required|
      invariant 0 <= i <= |required|
      invariant v.deps == deps && v.Valid() && v.visiting == {}
      invariant forall x :: x in v.result <==> ReachedFrom(Up(deps), required[..i], x)
    {
      var ok := v.Visit(required[i], nodes);
      if !ok {
        return Err(());
      }
      forall x ensures ReachedFrom(Up(deps), required[..i + 1], x)
                       <==> ReachedFrom(Up(deps), required[..i], x) || Reaches(Up(deps), required[i], x) {
        ReachedFromOneMore(Up(deps), required[..i], required[i], x);
        assert required[..i + 1] == required[..i] + [required[i]];
      }
      i := i + 1;
    }
    assert required[..i] == required;
    forall c | c in required ensures !CycleAbove(Up(deps), c) {
      forall b | Reaches(Up(deps), c, b) ensures !Needs(Up(deps), b, b) {
        assert ReachedFrom(Up(deps), required, b);
      }
    }
    return Ok(v.result);
  }

  // ----- Validation of a roadmap

  datatype Stage = Planned | Design | Build | Pilot | Released

  function Rank(s: Stage): nat {
    match s case Planned => 0 case Design => 1 case Build => 2 case Pilot => 3 case Released => 4
  }

  datatype Availability = Proposed | InPilot | InRelease

  function Floor(a: Availability): nat {
    match a case Proposed => 0 case InPilot => Rank(Pilot) case InRelease => Rank(Released)
  }

  /** `texts` are title, audience, problem and example, `lists` are journey,
      acceptance and success signals. */
  datatype UseCase = UseCase(
    id: Id, texts: seq<string>, lists: seq<seq<string>>, required: seq<Id>, availability: Availability)

  datatype Gate = Gate(text: string, done: bool)

  datatype Data = Data(
    stages: map<Id, Stage>, deps: Dependencies, tracks: seq<Id>, mapOrder: seq<Id>, gates: seq<seq<Gate>>,
    useCases: seq<UseCase>)

  predicate Filled(s: string) { exists i | 0 <= i < |s| :: !White(s[i]) }

  predicate Identifier(s: string) {
    && s != "" && 'a' <= s[0] <= 'z'
    && forall i | 0 <= i < |s| :: 'a' <= s[i] <= 'z' || '0' <= s[i] <= '9'
  }

  /** Every track is on the map once. */
  predicate MapFits(d: Data) { multiset(d.mapOrder) == multiset(d.tracks) }

  predicate GatesStated(d: Data) {
    d.gates != [] && forall i | 0 <= i < |d.gates| ::
      d.gates[i] != [] && forall j | 0 <= j < |d.gates[i]| :: d.gates[i][j].text != ""
  }

  predicate GatesDone(d: Data) {
    forall i, j | 0 <= i < |d.gates| && 0 <= j < |d.gates[i]| :: d.gates[i][j].done
  }

  predicate Described(u: UseCase) {
    && Identifier(u.id)
    && (forall i | 0 <= i < |u.texts| :: Filled(u.texts[i]))
    && (forall i | 0 <= i < |u.lists| ::
          u.lists[i] != [] && forall j | 0 <= j < |u.lists[i]| :: Filled(u.lists[i][j]))
  }

  predicate KnownDependencies(d: Data) {
    forall e | e in d.deps :: e.0 in d.stages && e.1 in d.stages && e.0 != e.1
  }

  predicate Distinct(s: seq<Id>) { forall i, j | 0 <= i < j < |s| :: s[i] != s[j] }

  predicate KnownRequirements(d: Data, u: UseCase) {
    u.required != [] && Distinct(u.required) && forall c | c in u.required :: c in d.stages
  }

  /** An offered use case has every transitive prerequisite at its stage or later. */
  ghost predicate Supported(d: Data, u: UseCase) {
    !u.availability.Proposed? ==>
      && (forall x | ReachedFrom(Up(d.deps), u.required, x) :: x in d.stages && Rank(d.stages[x]) >= Floor(u.availability))
      && GatesDone(d)
  }

  ghost predicate ValidUseCase(d: Data, u: UseCase) {
    Described(u) && KnownRequirements(d, u) && Supported(d, u)
  }

  ghost predicate ValidRoadmap(d: Data) {
    && KnownDependencies(d) && MapFits(d) && GatesStated(d)
    && (forall c :: !Needs(Up(d.deps), c, c))
    && d.useCases != []
    && (forall i | 0 <= i < |d.useCases| :: ValidUseCase(d, d.useCases[i]))
    && (forall i, j | 0 <= i < j < |d.useCases| :: d.useCases[i].id != d.useCases[j].id)
  }

  /** With known endpoints only capabilities can lie on a cycle, and what is
      reached from a capability is one. */
  lemma CapabilitiesClosed(d: Data)
    requires KnownDependencies(d)
    ensures Closed(Up(d.deps), d.stages.Keys)
    ensures forall c | Needs(Up(d.deps), c, c) :: c in d.stages
  {
    forall x, y | y in Upstream(d.deps, x) ensures x in d.stages && y in d.stages {
      UpstreamIsListed(d.deps, x, y);
    }
    forall c | Needs(Up(d.deps), c, c) ensures c in d.stages {
      var x :| x in Upstream(d.deps, c) && Reaches(Up(d.deps), x, c);
      UpstreamIsListed(d.deps, c, x);
    }
  }

  /** Visiting every capability finds every cycle. */
  method CheckCycles(d: Data) returns (ok: bool)
    requires KnownDependencies(d)
    ensures ok <==> forall c :: !Needs(Up(d.deps), c, c)
  {
    CapabilitiesClosed(d);
    var todo := d.stages.Keys;
    while todo != {}
      invariant todo <= d.stages.Keys
      invariant forall c | c in d.stages && c !in todo :: !CycleAbove(Up(d.deps), c)
    {
      var c :| c in todo;
      var r := Prerequisites(d.deps, [c]);
      if r.Err? {
        assert CycleAbove(Up(d.deps), c);
        return false;
      }
      assert c in [c];
      todo := todo - {c};
    }
    forall c ensures !Needs(Up(d.deps), c, c) {
      ReachesSelf(Up(d.deps), c);
    }
    return true;
  }

  method CheckUseCase(d: Data, u: UseCase) returns (ok: bool)
    requires KnownDependencies(d) && forall c :: !Needs(Up(d.deps), c, c)
    ensures ok <==> ValidUseCase(d, u)
  {
    if !Described(u) || !KnownRequirements(d, u) {
      return false;
    }
    if u.availability.Proposed? {
      return true;
    }
    var r := Prerequisites(d.deps, u.required);
    assert r.Ok?;
    CapabilitiesClosed(d);
    forall x | x in r.value ensures x in d.stages {
      var c :| c in u.required && Reaches(Up(d.deps), c, x);
      ClosedReaches(Up(d.deps), d.stages.Keys, c, x);
    }
    if exists x | x in r.value :: Rank(d.stages[x]) < Floor(u.availability) {
      return false;
    }
    return GatesDone(d);
  }

  /** Validation accepts exactly the roadmaps without cycles whose offered use
      cases are supported all the way up. */
  method Validate(d: Data) returns (ok: bool)
    ensures ok <==> ValidRoadmap(d)
  {
    if !KnownDependencies(d) {
      return false;
    }
    var acyclic := CheckCycles(d);
    if !acyclic {
      return false;
    }
    if !MapFits(d) || !GatesStated(d) || d.useCases == [] {
      return false;
    }
    var ids: set<Id> := {};
    for i := 0 to |d.useCases|
      invariant forall j | 0 <= j < i :: ValidUseCase(d, d.useCases[j])
      invariant forall j | 0 <= j < i :: d.useCases[j].id in ids
      invariant forall x | x in ids :: exists j :: 0 <= j < i && d.useCases[j].id == x
      invariant forall j, k | 0 <= j < k < i :: d.useCases[j].id != d.useCases[k].id
    {
      var fine := CheckUseCase(d, d.useCases[i]);
      if !fine || d.useCases[i].id in ids {
        return false;
      }
      ids := ids + {d.useCases[i].id};
    }
    return true;
  }
}
