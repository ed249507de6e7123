/** The native inventory: the dependency trees of the four targets merged into
    one graph with a component for each package, and the walk that checks the
    merged graph from its root. */
module CargoInventory {
  import opened Wrappers
  import opened Decimals
  import opened Graphs
  import opened Ordinal
  import opened Tables
  import opened CargoTree
  import opened CargoLine
  import opened CargoText
  import opened CargoComponents

  const MATERIAL := "pkg:cargo/zrotext-root-material@"
  const LIBRARY := "libzrotext_android_owner_custody.so"
  const ABIS := ["arm64-v8a", "armeabi-v7a", "x86_64", "x86"]
  const TARGETS := ["aarch64-linux-android", "armv7-linux-androideabi", "x86_64-linux-android", "i686-linux-android"]

  datatype Failure = WrongInput | Unreadable(error: Error) | DifferentRoots | MissingLibrary | Incomplete

  /** The components of packages and of packaged libraries, and the edges of both. */
  datatype Inventory = Inventory(root: Id, native: Native, libraries: Native, edges: map<Id, set<Id>>)

  /** A target's name and its tree, the commit, and the digests of packaged files. */
  datatype Input = Input(trees: seq<(string, string)>, src: Source, commit: string, entries: map<string, string>)

  function Artifact(root: Id, abi: string): Id { root + "?arch=" + abi }

  function Artifacts(root: Id): set<Id> { set abi | abi in ABIS :: Artifact(root, abi) }

  function Children(edges: map<Id, set<Id>>, x: Id): set<Id> {
    if x in edges then edges[x] else {}
  }

  function Joined(a: map<Id, set<Id>>, b: map<Id, set<Id>>): map<Id, set<Id>> {
    map x | x in a.Keys + b.Keys :: Children(a, x) + Children(b, x)
  }

  // ----- Merging

  datatype Partial = Partial(root: Option<Id>, native: Native, edges: map<Id, set<Id>>)

  const NOTHING := Partial(None, map[], map[])

  function Extended(p: Partial, t: Tree, abi: string, commit: string): Partial
    requires t.stack != []
  {
    Partial(Some(t.stack[0]), WithFacts(p.native, t.facts, abi, commit), Joined(p.edges, t.graph))
  }

  function Combined(p: Partial, trees: seq<(string, string)>, src: Source, commit: string): Result<Partial, Failure>
    decreases |trees|
  {
    if trees == [] then Ok(p)
    else
      match TextGraph(trees[0].1, src)
      case Err(e) => Err(Unreadable(e))
      case Ok(t) =>
        if p.root.Some? && p.root.value != t.stack[0] then Err(DifferentRoots)
        else Combined(Extended(p, t, trees[0].0, commit), trees[1..], src, commit)
  }

  function Entry(abi: string): string { "lib/" + abi + "/" + LIBRARY }

  predicate Packaged(entries: map<string, string>, abi: string) { Entry(abi) in entries && Hex(entries[Entry(abi)]) }

  function LibraryOf(entries: map<string, string>, i: nat): Component
    requires i < |ABIS| && Packaged(entries, ABIS[i])
  {
    Component([entries[Entry(ABIS[i])]], None, [(ENTRY, Entry(ABIS[i])), (TARGET, TARGETS[i])])
  }

  /** Of the first `n` libraries, each depends on the root package. */
  function WithArtifacts(edges: map<Id, set<Id>>, root: Id, n: nat): map<Id, set<Id>>
    requires n <= |ABIS|
  {
    if n == 0 then edges else WithArtifacts(edges, root, n - 1)[Artifact(root, ABIS[n - 1]) := {root}]
  }

  function Libraries(entries: map<string, string>, root: Id, n: nat): Native
    requires n <= |ABIS| && forall i | 0 <= i < n :: Packaged(entries, ABIS[i])
  {
    if n == 0 then map[] else Libraries(entries, root, n - 1)[Artifact(root, ABIS[n - 1]) := LibraryOf(entries, n - 1)]
  }

  predicate AllPackaged(entries: map<string, string>) { forall i | 0 <= i < |ABIS| :: Packaged(entries, ABIS[i]) }

  predicate RightTargets(trees: seq<(string, string)>) {
    |trees| == |ABIS| && Elements(Names(trees)) == Elements(ABIS)
  }

  /** A commit is named by 40 hexadecimal digits. */
  predicate Commit(s: string) { |s| == 40 && forall i | 0 <= i < |s| :: Digit(s[i]) || 'a' <= s[i] <= 'f' }

  function Merged(input: Input): Result<Inventory, Failure> {
    if !Commit(input.commit) || !RightTargets(input.trees) then Err(WrongInput)
    else
      match Combined(NOTHING, input.trees, input.src, input.commit)
      case Err(e) => Err(e)
      case Ok(p) =>
        if p.root.None? then Err(WrongInput)
        else if !AllPackaged(input.entries) then Err(MissingLibrary)
        else
          var root := p.root.value;
          Ok(Inventory(root, p.native, Libraries(input.entries, root, |ABIS|), WithArtifacts(p.edges, root, |ABIS|)))
  }

  method AddGraph(edges: map<Id, set<Id>>, graph: map<Id, set<Id>>) returns (out: map<Id, set<Id>>)
    ensures out == Joined(edges, graph)
  {
    out := edges;
    var left := graph.Keys;
    while left != {}
      invariant left <= graph.Keys && PartlyJoined(edges, graph, left, out)
      decreases |left|
    {
      var x :| x in left;
      JoinStep(edges, graph, left, out, x);
      out := out[x := Children(out, x) + graph[x]];
      left := left - {x};
    }
    JoinEnds(edges, graph, out);
  }

  ghost predicate PartlyJoined(
      edges: map<Id, set<Id>>, graph: map<Id, set<Id>>, left: set<Id>, out: map<Id, set<Id>>) {
    && out.Keys == edges.Keys + (graph.Keys - left)
    && forall x | x in out ::
         out[x] == if x in left then Children(edges, x) else Children(edges, x) + Children(graph, x)
  }

  lemma JoinEnds(edges: map<Id, set<Id>>, graph: map<Id, set<Id>>, out: map<Id, set<Id>>)
    requires PartlyJoined(edges, graph, {}, out)
    ensures out == Joined(edges, graph)
  {
  }

  lemma JoinStep(edges: map<Id, set<Id>>, graph: map<Id, set<Id>>, left: set<Id>, out: map<Id, set<Id>>, x: Id)
    requires PartlyJoined(edges, graph, left, out) && left <= graph.Keys && x in left
    ensures PartlyJoined(edges, graph, left - {x}, out[x := Children(out, x) + graph[x]])
  {
  }

  method AddComponents(native: Native, facts: map<Id, Facts>, abi: string, commit: string) returns (out: Native)
    ensures out == WithFacts(native, facts, abi, commit)
  {
    out := native;
    var left := facts.Keys;
    while left != {}
      invariant left <= facts.Keys && PartlyAdded(native, facts, abi, commit, left, out)
      decreases |left|
    {
      var x :| x in left;
      AddStep(native, facts, abi, commit, left, out, x);
      out := out[x := Updated(Known(out, x), facts[x], abi, commit)];
      left := left - {x};
    }
    AddEnds(native, facts, abi, commit, out);
  }

  ghost predicate PartlyAdded(
      native: Native, facts: map<Id, Facts>, abi: string, commit: string, left: set<Id>, out: Native) {
    && out.Keys == native.Keys + (facts.Keys - left)
    && forall x | x in out ::
         out[x] == if x in facts && x !in left then Updated(Known(native, x), facts[x], abi, commit) else Known(native, x)
  }

  lemma AddStep(native: Native, facts: map<Id, Facts>, abi: string, commit: string, left: set<Id>, out: Native, x: Id)
    requires PartlyAdded(native, facts, abi, commit, left, out) && left <= facts.Keys && x in left
    ensures PartlyAdded(native, facts, abi, commit, left - {x}, out[x := Updated(Known(out, x), facts[x], abi, commit)])
  {
    assert Known(out, x) == Known(native, x);
  }

  lemma AddEnds(native: Native, facts: map<Id, Facts>, abi: string, commit: string, out: Native)
    requires PartlyAdded(native, facts, abi, commit, {}, out)
    ensures out == WithFacts(native, facts, abi, commit)
  {
  }

  method AddLibraries(native: Native, edges: map<Id, set<Id>>, root: Id, entries: map<string, string>)
    returns (r: Result<Inventory, Failure>)
    ensures r == if AllPackaged(entries)
                 then Ok(Inventory(root, native, Libraries(entries, root, |ABIS|), WithArtifacts(edges, root, |ABIS|)))
                 else Err(MissingLibrary)
  {
    var libraries: Native, out := map[], edges;
    for k := 0 to |ABIS|
      invariant forall i | 0 <= i < k :: Packaged(entries, ABIS[i])
      invariant libraries == Libraries(entries, root, k) && out == WithArtifacts(edges, root, k)
    {
      if !Packaged(entries, ABIS[k]) {
        return Err(MissingLibrary);
      }
      libraries := libraries[Artifact(root, ABIS[k]) := LibraryOf(entries, k)];
      out := out[Artifact(root, ABIS[k]) := {root}];
    }
    return Ok(Inventory(root, native, libraries, out));
  }

  method MergeTrees(trees: seq<(string, string)>, src: Source, commit: string) returns (r: Result<Partial, Failure>)
    ensures r == Combined(NOTHING, trees, src, commit)
  {
    var p := NOTHING;
    for i := 0 to |trees|
      invariant Combined(p, trees[i..], src, commit) == Combined(NOTHING, trees, src, commit)
    {
      assert trees[i..][1..] == trees[i + 1..];
      var read := ParseTree(trees[i].1, src);
      if read.Err? {
        return Err(Unreadable(read.error));
      }
      var t := read.value;
      if p.root.Some? && p.root.value != t.stack[0] {
        return Err(DifferentRoots);
      }
      var native := AddComponents(p.native, t.facts, trees[i].0, commit);
      var edges := AddGraph(p.edges, t.graph);
      p := Partial(Some(t.stack[0]), native, edges);
    }
    return Ok(p);
  }

  method MergeInventory(input: Input) returns (r: Result<Inventory, Failure>)
    ensures r == Merged(input)
  {
    if !Commit(input.commit) || !RightTargets(input.trees) {
      return Err(WrongInput);
    }
    var merged := MergeTrees(input.trees, input.src, input.commit);
    if merged.Err? {
      return Err(merged.error);
    }
    if merged.value.root.None? {
      return Err(WrongInput);
    }
    r := AddLibraries(merged.value.native, merged.value.edges, merged.value.root.value, input.entries);
  }

  // ----- The walk from the root

  function Pending(todo: seq<Id>): set<Id> { set x | x in todo }

  lemma PendingLast(todo: seq<Id>, x: Id)
    ensures Pending(todo + [x]) == Pending(todo) + {x}
  {
    assert forall y :: y in todo + [x] <==> y in todo || y == x;
  }

  lemma PendingPopped(todo: seq<Id>)
    requires todo != []
    ensures Pending(todo) == Pending(todo[..|todo| - 1]) + {todo[|todo| - 1]}
  {
    assert todo == todo[..|todo| - 1] + [todo[|todo| - 1]];
    PendingLast(todo[..|todo| - 1], todo[|todo| - 1]);
  }

  method Extend(todo: seq<Id>, more: set<Id>) returns (out: seq<Id>)
    ensures Pending(out) == Pending(todo) + more
  {
    out := todo;
    var left := more;
    while left != {}
      invariant left <= more
      invariant Pending(out) == Pending(todo) + (more - left)
      decreases |left|
    {
      var x :| x in left;
      PendingLast(out, x);
      out := out + [x];
      left := left - {x};
    }
  }

  /** What was taken is there and reached, and so is what is pending; only what
      is pending is still missing. */
  ghost predicate Walking(graph: map<Id, set<Id>>, components: set<Id>, root: Id, todo: set<Id>, reachable: set<Id>) {
    && (root in reachable || root in todo)
    && reachable <= graph.Keys && reachable <= components
    && (forall x | x in reachable || x in todo :: Reaches(Edges(graph), root, x))
    && (forall x | x in reachable :: graph[x] <= reachable + todo)
  }

  lemma Taken(graph: map<Id, set<Id>>, components: set<Id>, root: Id, todo: set<Id>, reachable: set<Id>, x: Id)
    requires Walking(graph, components, root, todo + {x}, reachable)
    requires x in graph && x in components && x !in reachable
    ensures Walking(graph, components, root, todo + graph[x], reachable + {x})
    ensures |graph.Keys - (reachable + {x})| < |graph.Keys - reachable|
  {
    forall y | y in graph[x] ensures Reaches(Edges(graph), root, y) {
      ReachesEdge(Edges(graph), root, x, y);
    }
    assert graph.Keys - (reachable + {x}) == (graph.Keys - reachable) - {x};
  }

  lemma Skipped(graph: map<Id, set<Id>>, components: set<Id>, root: Id, todo: set<Id>, reachable: set<Id>, x: Id)
    requires Walking(graph, components, root, todo + {x}, reachable) && x in reachable
    ensures Walking(graph, components, root, todo, reachable)
  {
  }

  lemma WalkEnds(graph: map<Id, set<Id>>, components: set<Id>, root: Id, reachable: set<Id>)
    requires Walking(graph, components, root, {}, reachable)
    ensures forall x :: x in reachable <==> Reaches(Edges(graph), root, x)
    ensures AllPresent(graph, components, root)
  {
    assert Closed(Edges(graph), reachable);
    forall x | Reaches(Edges(graph), root, x) ensures x in reachable {
      ClosedReaches(Edges(graph), reachable, root, x);
    }
  }

  ghost predicate AllPresent(graph: map<Id, set<Id>>, components: set<Id>, root: Id) {
    forall x | Reaches(Edges(graph), root, x) :: x in graph && x in components
  }

  /** Succeeds exactly if everything reached from the root is there, and then
      returns exactly what is reached. */
  method Reachable(graph: map<Id, set<Id>>, components: set<Id>, root: Id) returns (r: Result<set<Id>, Failure>)
    ensures r.Ok? <==> AllPresent(graph, components, root)
    ensures r.Ok? ==> forall x :: x in r.value <==> Reaches(Edges(graph), root, x)
    ensures r.Err? ==> r.error == Incomplete
  {
    var todo, reachable: set<Id> := [root], {};
    ReachesSelf(Edges(graph), root);
    while todo != []
      invariant Walking(graph, components, root, Pending(todo), reachable)
      decreases |graph.Keys - reachable|, |todo|
    {
      PendingPopped(todo);
      var x := todo[|todo| - 1];
      todo := todo[..|todo| - 1];
      if x !in reachable {
        if x !in graph || x !in components {
          return Err(Incomplete);
        }
        Taken(graph, components, root, Pending(todo), reachable, x);
        reachable := reachable + {x};
        todo := Extend(todo, graph[x]);
      } else {
        Skipped(graph, components, root, Pending(todo), reachable, x);
      }
    }
    WalkEnds(graph, components, root, reachable);
    return Ok(reachable);
  }

  lemma ReachesEdge(succ: Graph, a: Id, b: Id, c: Id)
    requires Reaches(succ, a, b) && c in succ(b)
    ensures Reaches(succ, a, c)
  {
    ReachesSelf(succ, c);
    ReachesStep(succ, b, c, c);
    ReachesTrans(succ, a, b, c);
  }

  // ----- The merged graph passes the walk

  /** Rooted at `root` and closed. */
  ghost predicate Sound(edges: map<Id, set<Id>>, root: Id) {
    && root in edges
    && forall x | x in edges :: edges[x] <= edges.Keys && Reaches(Edges(edges), root, x)
  }

  lemma JoinedSound(a: map<Id, set<Id>>, b: map<Id, set<Id>>, root: Id)
    requires (a == map[] || Sound(a, root)) && Sound(b, root)
    ensures Sound(Joined(a, b), root)
  {
    var g := Edges(Joined(a, b));
    forall x | x in Joined(a, b) ensures Reaches(g, root, x) {
      if x in b {
        assert Within(Edges(b), g);
        ReachesMore(Edges(b), g, root, x);
      } else {
        assert Within(Edges(a), g);
        ReachesMore(Edges(a), g, root, x);
      }
    }
  }

  /** One graph below the root. */
  ghost predicate GraphMerged(p: Partial, abis: seq<string>) {
    && p.native.Keys == p.edges.Keys
    && (if p.root.Some? then Sound(p.edges, p.root.value) else p.edges == map[] && abis == [])
  }

  /** A formed component for each package. */
  ghost predicate AllFormed(native: Native, abis: seq<string>, locked: Lock, commit: string) {
    forall x | x in native :: Plainly(x) && x in locked && Formed(native[x], abis, locked[x], commit)
  }

  /** The root was named by every target so far. */
  ghost predicate RootNamed(p: Partial, abis: seq<string>) {
    p.root.Some? ==> forall abi | abi in abis :: FEATURES + abi in Names(Known(p.native, p.root.value).properties)
  }

  /** Where the merge stands. */
  ghost predicate Merging(p: Partial, abis: seq<string>, locked: Lock, commit: string) {
    GraphMerged(p, abis) && AllFormed(p.native, abis, locked, commit) && RootNamed(p, abis)
  }

  /** A tree that was accepted, and which continues the merge. */
  ghost predicate Continues(p: Partial, t: Tree, locked: Lock) {
    && t.stack != [] && (p.root.None? || p.root.value == t.stack[0])
    && t.facts.Keys == t.graph.Keys && AllVouched(t, locked) && Sound(t.graph, t.stack[0])
  }

  lemma ExtendedGraph(p: Partial, t: Tree, abis: seq<string>, abi: string, locked: Lock, commit: string)
    requires GraphMerged(p, abis) && Continues(p, t, locked)
    ensures GraphMerged(Extended(p, t, abi, commit), abis + [abi])
  {
    JoinedSound(p.edges, t.graph, t.stack[0]);
  }

  lemma ExtendedFormed(p: Partial, t: Tree, abis: seq<string>, abi: string, locked: Lock, commit: string, x: Id)
    requires AllFormed(p.native, abis, locked, commit) && Continues(p, t, locked) && abi !in abis
    requires x in Extended(p, t, abi, commit).native
    ensures var c := Extended(p, t, abi, commit).native[x];
            && Plainly(x) && x in locked && Formed(c, abis + [abi], locked[x], commit)
            && (x in t.facts ==> FEATURES + abi in Names(c.properties))
            && forall name | name in Names(Known(p.native, x).properties) :: name in Names(c.properties)
  {
    if x in t.facts {
      assert Vouched(x, t.facts[x], locked);
      UpdatedKeeps(Known(p.native, x), t.facts[x], abis, abi, commit);
    } else {
      FormedLater(p.native[x], abis, abi, locked[x], commit);
    }
  }

  lemma ExtendedAllFormed(p: Partial, t: Tree, abis: seq<string>, abi: string, locked: Lock, commit: string)
    requires AllFormed(p.native, abis, locked, commit) && Continues(p, t, locked) && abi !in abis
    ensures AllFormed(Extended(p, t, abi, commit).native, abis + [abi], locked, commit)
  {
    var native := Extended(p, t, abi, commit).native;
    forall x | x in native ensures Plainly(x) && x in locked && Formed(native[x], abis + [abi], locked[x], commit) {
      ExtendedFormed(p, t, abis, abi, locked, commit, x);
    }
  }

  lemma ExtendedRoot(p: Partial, t: Tree, abis: seq<string>, abi: string, locked: Lock, commit: string)
    requires AllFormed(p.native, abis, locked, commit) && RootNamed(p, abis) && (p.root.None? ==> abis == [])
    requires Continues(p, t, locked) && abi !in abis
    ensures RootNamed(Extended(p, t, abi, commit), abis + [abi])
  {
    var root := t.stack[0];
    ExtendedFormed(p, t, abis, abi, locked, commit, root);
    var names := Names(Extended(p, t, abi, commit).native[root].properties);
    forall other | other in abis + [abi] ensures FEATURES + other in names {
      if other != abi {
        assert other in abis;
        assert FEATURES + other in Names(Known(p.native, root).properties);
      }
    }
  }

  lemma ExtendedMerging(p: Partial, t: Tree, abis: seq<string>, abi: string, locked: Lock, commit: string)
    requires Merging(p, abis, locked, commit) && Continues(p, t, locked) && abi !in abis
    ensures Merging(Extended(p, t, abi, commit), abis + [abi], locked, commit)
  {
    ExtendedGraph(p, t, abis, abi, locked, commit);
    ExtendedAllFormed(p, t, abis, abi, locked, commit);
    ExtendedRoot(p, t, abis, abi, locked, commit);
  }

  lemma NextContinues(p: Partial, text: string, src: Source)
    requires TextGraph(text, src).Ok? && (p.root.None? || p.root.value == TextGraph(text, src).value.stack[0])
    ensures Continues(p, TextGraph(text, src).value, src.locked)
  {
    AcceptedTextIsRooted(text, src);
  }

  lemma {:induction false} CombinedMerging(
      p: Partial, trees: seq<(string, string)>, abis: seq<string>, src: Source, commit: string)
    requires Merging(p, abis, src.locked, commit) && Combined(p, trees, src, commit).Ok?
    requires NoRepeats(abis + Names(trees))
    ensures Merging(Combined(p, trees, src, commit).value, abis + Names(trees), src.locked, commit)
    decreases |trees|
  {
    if trees == [] {
      assert abis + Names(trees) == abis;
    } else {
      var abi, rest := trees[0].0, trees[1..];
      FirstName(abis, trees);
      FirstIsFresh(abis, abi, Names(rest));
      NextContinues(p, trees[0].1, src);
      var q := Extended(p, TextGraph(trees[0].1, src).value, abi, commit);
      ExtendedMerging(p, TextGraph(trees[0].1, src).value, abis, abi, src.locked, commit);
      CombinedMerging(q, rest, abis + [abi], src, commit);
    }
  }

  lemma FirstName(abis: seq<string>, trees: seq<(string, string)>)
    requires trees != []
    ensures abis + Names(trees) == abis + ([trees[0].0] + Names(trees[1..]))
    ensures abis + Names(trees) == abis + [trees[0].0] + Names(trees[1..])
  {
    assert Names(trees) == [trees[0].0] + Names(trees[1..]);
  }

  lemma FirstIsFresh(a: seq<string>, x: string, b: seq<string>)
    requires NoRepeats(a + ([x] + b))
    ensures x !in a
  {
    var all := a + ([x] + b);
    forall i | 0 <= i < |a| ensures a[i] != x {
      assert all[i] == a[i] && all[|a|] == x;
    }
  }

  lemma AbisDiffer()
    ensures NoRepeats(ABIS)
  {
    assert |ABIS[0]| == 9 && |ABIS[1]| == 11 && |ABIS[2]| == 6 && |ABIS[3]| == 3;
  }

  lemma TargetsDiffer(trees: seq<(string, string)>)
    requires RightTargets(trees)
    ensures NoRepeats(Names(trees))
  {
    AbisDiffer();
    Cardinality(ABIS);
    Cardinality(Names(trees));
  }

  lemma ArtifactsHaveQuery(root: Id)
    requires Plainly(root)
    ensures forall x | x in Artifacts(root) :: '?' in x && CARGO <= x
  {
    forall x | x in Artifacts(root) ensures '?' in x {
      assert x[|root|] == '?';
    }
  }

  /** The packages hang together below the root, and the libraries stand apart from them. */
  ghost predicate Coherent(m: Inventory) {
    && m.edges.Keys == m.native.Keys + Artifacts(m.root)
    && m.native.Keys !! Artifacts(m.root)
    && (forall x | x in m.edges :: CARGO <= x)
    && (forall x | x in Artifacts(m.root) :: m.edges[x] == {m.root})
    && Sound(map x | x in m.native :: m.edges[x], m.root)
  }

  lemma WithArtifactsCoherent(native: Native, libraries: Native, edges: map<Id, set<Id>>, root: Id)
    requires native.Keys == edges.Keys && Sound(edges, root) && forall x | x in native :: Plainly(x)
    ensures Coherent(Inventory(root, native, libraries, WithArtifacts(edges, root, |ABIS|)))
  {
    ArtifactsHaveQuery(root);
    AllLibrariesAdded(edges, root);
    var all := WithArtifacts(edges, root, |ABIS|);
    assert (map x | x in native :: all[x]) == edges;
  }

  lemma MergedParts(input: Input)
    requires Merged(input).Ok?
    ensures var p := Combined(NOTHING, input.trees, input.src, input.commit).value;
            p.root.Some? && Merging(p, Names(input.trees), input.src.locked, input.commit)
  {
    TargetsDiffer(input.trees);
    assert [] + Names(input.trees) == Names(input.trees);
    CombinedMerging(NOTHING, input.trees, [], input.src, input.commit);
  }

  lemma MergedCoherent(input: Input)
    requires Merged(input).Ok?
    ensures Coherent(Merged(input).value)
  {
    MergedParts(input);
    var p := Combined(NOTHING, input.trees, input.src, input.commit).value;
    WithArtifactsCoherent(p.native, Libraries(input.entries, p.root.value, |ABIS|), p.edges, p.root.value);
  }

  lemma AllLibrariesAdded(edges: map<Id, set<Id>>, root: Id)
    ensures var all := WithArtifacts(edges, root, |ABIS|);
            && all.Keys == edges.Keys + Artifacts(root)
            && forall x | x in all :: all[x] == if x in Artifacts(root) then {root} else edges[x]
  {
    LibrariesAdded(edges, root, |ABIS|);
    assert ABIS[..|ABIS|] == ABIS;
  }

  lemma {:induction false} LibrariesAdded(edges: map<Id, set<Id>>, root: Id, n: nat)
    requires n <= |ABIS|
    ensures var added := set abi | abi in ABIS[..n] :: Artifact(root, abi);
            && WithArtifacts(edges, root, n).Keys == edges.Keys + added
            && forall x | x in WithArtifacts(edges, root, n) ::
                 WithArtifacts(edges, root, n)[x] == if x in added then {root} else edges[x]
  {
    if n > 0 {
      LibrariesAdded(edges, root, n - 1);
      assert ABIS[..n] == ABIS[..n - 1] + [ABIS[n - 1]];
    }
  }

  /** The part of a graph that a closed set keeps to itself decides what is
      reached from inside the set. */
  lemma ReachedInside(part: map<Id, set<Id>>, whole: map<Id, set<Id>>, root: Id, x: Id)
    requires Sound(part, root) && forall y | y in part :: y in whole && whole[y] == part[y]
    ensures Reaches(Edges(whole), root, x) <==> x in part
  {
    if x in part {
      assert Within(Edges(part), Edges(whole));
      ReachesMore(Edges(part), Edges(whole), root, x);
    } else if Reaches(Edges(whole), root, x) {
      assert Closed(Edges(whole), part.Keys);
      ClosedReaches(Edges(whole), part.Keys, root, x);
    }
  }

  /** What the check asks of the walk's result. */
  predicate Complete(reachable: set<Id>, components: set<Id>, root: Id) {
    && (set x | x in components && CARGO <= x) == reachable + Artifacts(root)
    && exists x :: x in reachable && MATERIAL <= x
  }

  /** Put the merged graph into any other bill of materials: the walk from the
      root reaches exactly the merged packages, and the check passes if and only
      if the other components are not Cargo's and root material was merged. */
  lemma MergedInventoryIsComplete(input: Input, graph: map<Id, set<Id>>, others: set<Id>)
    requires Merged(input).Ok?
    requires var m := Merged(input).value;
             && others !! m.edges.Keys
             && forall x | x in m.edges :: x in graph && graph[x] == m.edges[x]
    ensures var m := Merged(input).value;
            && (forall x :: Reaches(Edges(graph), m.root, x) <==> x in m.native)
            && (Complete(m.native.Keys, others + m.edges.Keys, m.root) <==>
                  (forall x | x in others :: !(CARGO <= x)) && exists x :: x in m.native && MATERIAL <= x)
  {
    var m := Merged(input).value;
    MergedCoherent(input);
    var part := map x | x in m.native :: m.edges[x];
    forall x ensures Reaches(Edges(graph), m.root, x) <==> x in m.native {
      ReachedInside(part, graph, m.root, x);
    }
    OthersDecide(m, others);
  }

  lemma OthersDecide(m: Inventory, others: set<Id>)
    requires Coherent(m) && others !! m.edges.Keys
    ensures (set x | x in others + m.edges.Keys && CARGO <= x) == m.native.Keys + Artifacts(m.root) <==>
              forall x | x in others :: !(CARGO <= x)
  {
    var cargo := set x | x in others + m.edges.Keys && CARGO <= x;
    forall x | x in others && CARGO <= x ensures cargo != m.edges.Keys {
      assert x in cargo;
    }
    if forall x | x in others :: !(CARGO <= x) {
      assert cargo == m.edges.Keys;
    }
  }

  // ----- The merged components pass their checks

  lemma SameFeatures(abis: seq<string>)
    requires Elements(abis) == Elements(ABIS)
    ensures FeatureNames(abis) == FeatureNames(ABIS) && forall abi | abi in ABIS :: abi in abis
  {
    assert forall abi :: abi in abis <==> abi in Elements(abis);
    assert forall abi :: abi in ABIS <==> abi in Elements(ABIS);
  }

  /** Every merged package passes the check of its component: its features are
      those of some of the targets, of all four for the root, and it has either
      the commit or one checksum. */
  lemma MergedPackagesAreChecked(input: Input, x: Id)
    requires Merged(input).Ok? && x in Merged(input).value.native
    ensures Checked(x, Merged(input).value.native[x], ABIS, Merged(input).value.root, input.commit)
  {
    MergedParts(input);
    var p := Combined(NOTHING, input.trees, input.src, input.commit).value;
    SameFeatures(Names(input.trees));
    assert Formed(p.native[x], ABIS, input.src.locked[x], input.commit);
    FormedIsChecked(x, p.native[x], ABIS, input.src.locked[x], p.root.value, input.commit);
  }

  lemma ArtifactsDiffer(root: Id, i: nat, j: nat)
    requires i < |ABIS| && j < |ABIS| && Artifact(root, ABIS[i]) == Artifact(root, ABIS[j])
    ensures i == j
  {
    var n := |root + "?arch="|;
    assert Artifact(root, ABIS[i])[n..] == ABIS[i] && Artifact(root, ABIS[j])[n..] == ABIS[j];
    AbisDiffer();
  }

  lemma {:induction false} LibraryAt(entries: map<string, string>, root: Id, n: nat, i: nat)
    requires i < n <= |ABIS| && forall k | 0 <= k < n :: Packaged(entries, ABIS[k])
    ensures var x := Artifact(root, ABIS[i]);
            x in Libraries(entries, root, n) && Libraries(entries, root, n)[x] == LibraryOf(entries, i)
  {
    if i < n - 1 {
      LibraryAt(entries, root, n - 1, i);
      if Artifact(root, ABIS[i]) == Artifact(root, ABIS[n - 1]) {
        ArtifactsDiffer(root, i, n - 1);
      }
    }
  }

  /** Every packaged library has exactly its own entry, target and digest, and
      depends on exactly the root. */
  lemma MergedLibrariesAreChecked(input: Input, i: nat)
    requires Merged(input).Ok? && i < |ABIS|
    ensures var m := Merged(input).value;
            var x := Artifact(m.root, ABIS[i]);
            && x in m.libraries && x in m.edges && m.edges[x] == {m.root}
            && Collected(m.libraries[x].properties) == Some(map[ENTRY := Entry(ABIS[i]), TARGET := TARGETS[i]])
            && Entry(ABIS[i]) in input.entries && Hex(input.entries[Entry(ABIS[i])])
            && m.libraries[x].hashes == [input.entries[Entry(ABIS[i])]]
  {
    var m := Merged(input).value;
    MergedCoherent(input);
    LibraryAt(input.entries, m.root, |ABIS|, i);
    assert ABIS[i] in ABIS && Artifact(m.root, ABIS[i]) in Artifacts(m.root);
    var pairs := LibraryOf(input.entries, i).properties;
    assert |ENTRY| != |TARGET|;
    assert pairs[..1] == [pairs[0]] && pairs[..1][..0] == [];
    assert Collected(pairs[..1]) == Some(map[ENTRY := Entry(ABIS[i])]);
  }
}
