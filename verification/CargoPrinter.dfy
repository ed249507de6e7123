/** The other direction: a dependency graph printed in preorder with depths,
    each package with its dependencies the first time and abbreviated after
    that. Reading the text back gives the graph. */
module CargoPrinter {
  import opened Wrappers
  import opened Graphs
  import opened Ordinal
  import opened CargoTree

  /** A finite acyclic graph; `rank` falls along every edge. */
  datatype Dag = Dag(children: map<Id, seq<Id>>, rank: map<Id, nat>, facts: map<Id, Facts>)

  predicate Valid(g: Dag) {
    forall x | x in g.children ::
      && x in g.rank && x in g.facts
      && forall i | 0 <= i < |g.children[x]| ::
           g.children[x][i] in g.children && g.children[x][i] in g.rank && g.rank[g.children[x][i]] < g.rank[x]
  }

  /** The lock file names every package with the lock entry among its facts. */
  predicate Locks(g: Dag, locked: Lock) {
    forall x | x in g.children && x in g.facts :: x in locked && locked[x] == g.facts[x].lock
  }

  function Line(g: Dag, x: Id, depth: nat, repeat: bool): Record
    requires x in g.facts
  {
    Record(depth, x, g.facts[x].license, g.facts[x].features, repeat, true)
  }

  /** The lines for `x` at a depth, and the packages printed once they are out. */
  function Print(g: Dag, x: Id, depth: nat, seen: set<Id>): (r: (seq<Record>, set<Id>))
    requires Valid(g) && x in g.children
    ensures seen + {x} <= r.1
    decreases g.rank[x]
  {
    if x in seen then ([Line(g, x, depth, g.children[x] != [])], seen)
    else
      var rest := PrintAll(g, g.children[x], g.rank[x], depth + 1, seen + {x});
      ([Line(g, x, depth, false)] + rest.0, rest.1)
  }

  /** The same for a list of packages, all of rank below `bound`. */
  function PrintAll(g: Dag, xs: seq<Id>, bound: nat, depth: nat, seen: set<Id>): (r: (seq<Record>, set<Id>))
    requires Valid(g) && forall i | 0 <= i < |xs| :: xs[i] in g.children && g.rank[xs[i]] < bound
    ensures seen <= r.1
    decreases bound, |xs|
  {
    if xs == [] then ([], seen)
    else
      var first := Print(g, xs[0], depth, seen);
      var rest := PrintAll(g, xs[1..], bound, depth, first.1);
      (first.0 + rest.0, rest.1)
  }

  // ----- Reading it back

  lemma {:induction false} ReadAppend(t: Tree, xs: seq<Record>, ys: seq<Record>, locked: Lock)
    requires Read(t, xs, locked).Ok?
    ensures Read(t, xs + ys, locked) == Read(Read(t, xs, locked).value, ys, locked)
    decreases |xs|
  {
    if xs == [] {
      assert xs + ys == ys;
    } else {
      assert (xs + ys)[1..] == xs[1..] + ys;
      ReadAppend(Added(t, xs[0], locked), xs[1..], ys, locked);
    }
  }

  /** The reader has met exactly the packages in `seen`, with their facts. */
  predicate Knows(g: Dag, t: Tree, seen: set<Id>) {
    && t.graph.Keys == seen && t.facts.Keys == seen && seen <= g.children.Keys
    && forall x | x in seen :: x in g.facts && t.facts[x] == g.facts[x]
  }

  /** From `t` to `v`: new packages have all their edges, and known ones gain
      only what was listed under `parent`. */
  ghost predicate Grown(g: Dag, t: Tree, v: Tree, parent: Option<Id>, listed: set<Id>) {
    && t.graph.Keys <= v.graph.Keys <= g.children.Keys
    && (forall x | x in v.graph && x !in t.graph :: v.graph[x] == Elements(g.children[x]))
    && (forall x | x in t.graph :: v.graph[x] == if parent == Some(x) then t.graph[x] + listed else t.graph[x])
  }

  function Parent(t: Tree, depth: nat): Option<Id> {
    if 0 < depth <= |t.stack| then Some(t.stack[depth - 1]) else None
  }

  /** The reader stands where a line of this depth may come next. */
  predicate Ready(g: Dag, t: Tree, depth: nat, seen: set<Id>) {
    && Knows(g, t, seen) && depth <= |t.stack| && (depth == 0 ==> t.stack == [])
    && (depth > 0 ==> t.stack[depth - 1] in seen)
  }

  /** What has been read once `printed` of depth `depth` are out. */
  ghost predicate ReadBack(g: Dag, t: Tree, r: Result<Tree, Error>, depth: nat, listed: set<Id>, seen: set<Id>) {
    && r.Ok?
    && Knows(g, r.value, seen)
    && Grown(g, t, r.value, Parent(t, depth), listed)
    && depth <= |t.stack| && depth <= |r.value.stack| && r.value.stack[..depth] == t.stack[..depth]
  }

  lemma GrownTwice(g: Dag, t: Tree, u: Tree, v: Tree, parent: Id, first: set<Id>, rest: set<Id>)
    requires parent in t.graph && Grown(g, t, u, Some(parent), first) && Grown(g, u, v, Some(parent), rest)
    ensures Grown(g, t, v, Some(parent), first + rest)
  {
  }

  /** A line for `x` was read: its node is there, and the edge from its parent. */
  ghost predicate LineRead(t: Tree, v: Tree, parent: Option<Id>, x: Id) {
    && v.graph.Keys == t.graph.Keys + {x}
    && (forall y | y in t.graph :: v.graph[y] == if parent == Some(y) then t.graph[y] + {x} else t.graph[y])
    && (x !in t.graph ==> v.graph[x] == {})
  }

  lemma GrownByNode(g: Dag, t: Tree, v: Tree, w: Tree, parent: Option<Id>, x: Id)
    requires x in g.children && x !in t.graph && LineRead(t, v, parent, x)
    requires Grown(g, v, w, Some(x), Elements(g.children[x]))
    ensures Grown(g, t, w, parent, {x})
  {
  }

  lemma ReadLine(g: Dag, t: Tree, x: Id, depth: nat, seen: set<Id>, repeat: bool, locked: Lock)
    requires Valid(g) && Locks(g, locked) && x in g.children && Ready(g, t, depth, seen) && (repeat ==> x in seen)
    requires Parent(t, depth) != Some(x)
    ensures Refusal(t, Line(g, x, depth, repeat), locked).None?
    ensures var v := Added(t, Line(g, x, depth, repeat), locked);
            Knows(g, v, seen + {x}) && v.stack == t.stack[..depth] + [x] && LineRead(t, v, Parent(t, depth), x)
  {
  }

  lemma ReadCons(t: Tree, line: Record, rest: seq<Record>, locked: Lock)
    requires Refusal(t, line, locked).None?
    ensures Read(t, [line] + rest, locked) == Read(Added(t, line, locked), rest, locked)
  {
    assert ([line] + rest)[1..] == rest;
  }

  lemma ShorterPrefix(s: seq<Id>, u: seq<Id>, t: seq<Id>, x: Id, n: nat)
    requires n < |s| && n <= |t| && u == t[..n] + [x] && s[..n + 1] == u[..n + 1]
    ensures s[..n] == t[..n]
  {
    assert s[..n] == s[..n + 1][..n];
  }

  lemma FirstAndRest(xs: seq<Id>)
    requires xs != []
    ensures Elements(xs) == {xs[0]} + Elements(xs[1..])
  {
    assert xs == [xs[0]] + xs[1..];
  }

  lemma {:induction false} PrintReadsBack(g: Dag, t: Tree, x: Id, depth: nat, seen: set<Id>, locked: Lock)
    requires Valid(g) && Locks(g, locked) && x in g.children && Ready(g, t, depth, seen)
    requires Parent(t, depth) != Some(x)
    ensures ReadBack(g, t, Read(t, Print(g, x, depth, seen).0, locked), depth, {x}, Print(g, x, depth, seen).1)
    decreases g.rank[x]
  {
    var repeat := x in seen && g.children[x] != [];
    var line := Line(g, x, depth, repeat);
    ReadLine(g, t, x, depth, seen, repeat, locked);
    var v := Added(t, line, locked);
    if x in seen {
      ReadCons(t, line, [], locked);
      assert [line] + [] == [line];
      assert seen + {x} == seen;
      assert v.stack[..depth] == t.stack[..depth];
    } else {
      var rest := PrintAll(g, g.children[x], g.rank[x], depth + 1, seen + {x});
      PrintAllReadsBack(g, v, g.children[x], g.rank[x], depth + 1, seen + {x}, locked);
      var w := Read(v, rest.0, locked).value;
      GrownByNode(g, t, v, w, Parent(t, depth), x);
      ReadCons(t, line, rest.0, locked);
      ShorterPrefix(w.stack, v.stack, t.stack, x, depth);
    }
  }

  lemma {:induction false} PrintAllReadsBack(
      g: Dag, t: Tree, xs: seq<Id>, bound: nat, depth: nat, seen: set<Id>, locked: Lock)
    requires Valid(g) && Locks(g, locked) && Ready(g, t, depth, seen) && depth > 0
    requires forall i | 0 <= i < |xs| :: xs[i] in g.children && g.rank[xs[i]] < bound
    requires t.stack[depth - 1] in g.rank && bound <= g.rank[t.stack[depth - 1]]
    ensures ReadBack(g, t, Read(t, PrintAll(g, xs, bound, depth, seen).0, locked), depth, Elements(xs),
                     PrintAll(g, xs, bound, depth, seen).1)
    decreases bound, |xs|
  {
    if xs != [] {
      var first := Print(g, xs[0], depth, seen);
      PrintReadsBack(g, t, xs[0], depth, seen, locked);
      var u := Read(t, first.0, locked).value;
      assert u.stack[depth - 1] == u.stack[..depth][depth - 1] == t.stack[..depth][depth - 1];
      var rest := PrintAll(g, xs[1..], bound, depth, first.1);
      PrintAllReadsBack(g, u, xs[1..], bound, depth, first.1, locked);
      var v := Read(u, rest.0, locked).value;
      ReadAppend(t, first.0, rest.0, locked);
      GrownTwice(g, t, u, v, t.stack[depth - 1], {xs[0]}, Elements(xs[1..]));
      FirstAndRest(xs);
    }
  }

  // ----- The round trip

  ghost function Children(g: Dag): Graph {
    x => if x in g.children then Elements(g.children[x]) else {}
  }

  /** Closed under the graph's edges and reached from `root`, hence exactly what `root` reaches. */
  lemma ExactlyReached(g: Dag, graph: map<Id, set<Id>>, root: Id, x: Id)
    requires root in graph && graph.Keys <= g.children.Keys
    requires forall y | y in graph :: graph[y] == Elements(g.children[y]) && graph[y] <= graph.Keys
    requires forall y | y in graph :: Reaches(Edges(graph), root, y)
    ensures x in graph <==> Reaches(Children(g), root, x)
  {
    var h := Children(g);
    if x in graph {
      assert Within(Edges(graph), h);
      ReachesMore(Edges(graph), h, root, x);
    } else if Reaches(h, root, x) {
      assert Closed(h, graph.Keys);
      ClosedReaches(h, graph.Keys, root, x);
    }
  }

  lemma FirstIsRoot(records: seq<Record>, locked: Lock)
    requires records != [] && Read(EMPTY, records, locked).Ok? && ROOT_PREFIX <= records[0].identity
    ensures TreeGraph(records, locked).Ok?
  {
    AddedRooted(EMPTY, records[0], locked);
    ReadRooted(Added(EMPTY, records[0], locked), records[1..], locked);
  }

  lemma RootFirst(g: Dag, root: Id)
    requires Valid(g) && root in g.children
    ensures Print(g, root, 0, {}).0 != [] && Print(g, root, 0, {}).0[0].identity == root
  {
  }

  lemma WholeGraph(g: Dag, root: Id, locked: Lock)
    requires Valid(g) && Locks(g, locked) && root in g.children
    ensures var r := Read(EMPTY, Print(g, root, 0, {}).0, locked);
            && r.Ok? && root in r.value.graph && Knows(g, r.value, r.value.graph.Keys)
            && forall x | x in r.value.graph :: x in g.children && r.value.graph[x] == Elements(g.children[x])
  {
    PrintReadsBack(g, EMPTY, root, 0, {}, locked);
  }

  /** For every acyclic graph and root: the printed text is accepted, and reading
      it gives exactly the packages reached from the root, each with exactly its
      dependencies and its facts. */
  lemma PrintedTreeReadsBack(g: Dag, root: Id, locked: Lock)
    requires Valid(g) && Locks(g, locked) && root in g.children && ROOT_PREFIX <= root
    ensures var r := TreeGraph(Print(g, root, 0, {}).0, locked);
            && r.Ok?
            && (forall x :: x in r.value.graph <==> Reaches(Children(g), root, x))
            && (forall x | x in r.value.graph ::
                  x in g.children && r.value.graph[x] == Elements(g.children[x])
                  && x in r.value.facts && x in g.facts && r.value.facts[x] == g.facts[x])
  {
    var lines := Print(g, root, 0, {}).0;
    WholeGraph(g, root, locked);
    RootFirst(g, root);
    FirstIsRoot(lines, locked);
    AcceptedTreeIsRooted(lines, locked);
    var t := TreeGraph(lines, locked).value;
    forall x ensures x in t.graph <==> Reaches(Children(g), root, x) {
      ExactlyReached(g, t.graph, root, x);
    }
  }
}
