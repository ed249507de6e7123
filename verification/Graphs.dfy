/** Paths in a directed graph that is given by the successors of each node. */
module Graphs {
  type Id = string

  type Graph = Id -> set<Id>

  ghost predicate Path(succ: Graph, p: seq<Id>) {
    p != [] && forall i | 0 <= i < |p| - 1 :: p[i + 1] in succ(p[i])
  }

  ghost predicate PathBetween(succ: Graph, a: Id, b: Id, p: seq<Id>) {
    Path(succ, p) && p[0] == a && p[|p| - 1] == b
  }

  /** There is a path from `a` to `b`, perhaps of no edge. */
  ghost predicate Reaches(succ: Graph, a: Id, b: Id) {
    exists p :: PathBetween(succ, a, b, p)
  }

  /** There is a path of at least one edge from `a` to `b`. */
  ghost predicate Needs(succ: Graph, a: Id, b: Id) {
    exists x :: x in succ(a) && Reaches(succ, x, b)
  }

  /** A cycle can be reached from `a`. */
  ghost predicate CycleAbove(succ: Graph, a: Id) {
    exists b :: Reaches(succ, a, b) && Needs(succ, b, b)
  }

  lemma ReachesSelf(succ: Graph, a: Id)
    ensures Reaches(succ, a, a)
  {
    assert PathBetween(succ, a, a, [a]);
  }

  lemma ReachesStep(succ: Graph, a: Id, x: Id, b: Id)
    requires x in succ(a) && Reaches(succ, x, b)
    ensures Reaches(succ, a, b) && Needs(succ, a, b)
  {
    var p :| PathBetween(succ, x, b, p);
    assert PathBetween(succ, a, b, [a] + p);
  }

  lemma ReachesUnfold(succ: Graph, a: Id, b: Id)
    ensures Reaches(succ, a, b) <==> a == b || Needs(succ, a, b)
  {
    if Reaches(succ, a, b) && a != b {
      var p :| PathBetween(succ, a, b, p);
      assert PathBetween(succ, p[1], b, p[1..]);
    }
    if a == b {
      ReachesSelf(succ, a);
    }
    if Needs(succ, a, b) {
      var x :| x in succ(a) && Reaches(succ, x, b);
      ReachesStep(succ, a, x, b);
    }
  }

  lemma ReachesTrans(succ: Graph, a: Id, b: Id, c: Id)
    requires Reaches(succ, a, b) && Reaches(succ, b, c)
    ensures Reaches(succ, a, c)
  {
    var p :| PathBetween(succ, a, b, p);
    var q :| PathBetween(succ, b, c, q);
    assert PathBetween(succ, a, c, p + q[1..]);
  }

  lemma NeedsThenEdge(succ: Graph, a: Id, b: Id, c: Id)
    requires Needs(succ, a, b) && c in succ(b)
    ensures Needs(succ, a, c)
  {
    var x :| x in succ(a) && Reaches(succ, x, b);
    ReachesSelf(succ, c);
    ReachesStep(succ, b, c, c);
    ReachesTrans(succ, x, b, c);
  }

  ghost predicate Closed(succ: Graph, s: set<Id>) {
    forall x, y | x in s && y in succ(x) :: y in s
  }

  lemma {:induction false} ClosedPath(succ: Graph, s: set<Id>, p: seq<Id>)
    requires Closed(succ, s) && Path(succ, p) && p[0] in s
    ensures p[|p| - 1] in s
    decreases |p|
  {
    if |p| > 1 {
      assert p[1] in succ(p[0]);
      ClosedPath(succ, s, p[1..]);
    }
  }

  lemma ClosedReaches(succ: Graph, s: set<Id>, a: Id, b: Id)
    requires Closed(succ, s) && a in s && Reaches(succ, a, b)
    ensures b in s
  {
    var p :| PathBetween(succ, a, b, p);
    ClosedPath(succ, s, p);
  }
}
