/** Cargo's depth-prefixed dependency tree: reading it into a graph, record by
    record. */
module CargoTree {
  import opened Wrappers
  import opened Graphs

  const ROOT_PREFIX := "pkg:cargo/zrotext-android-owner-custody@"

  /** An entry of the lock file; without a source it is a workspace package. */
  datatype Package = Package(source: string, checksum: string)

  datatype Facts = Facts(lock: Package, license: string, features: string)

  /** `repeat` is the mark of an abbreviated package, `placed` that its source
      agrees with its lock entry. */
  datatype Record = Record(depth: nat, identity: Id, license: string, features: string, repeat: bool, placed: bool)

  datatype Error = Unrecognized | InvalidDepth | NotLocked | WrongSource | RepeatBeforeDefinition | InconsistentFacts | WrongRoot

  type Lock = map<Id, Package>

  datatype Tree = Tree(graph: map<Id, set<Id>>, facts: map<Id, Facts>, stack: seq<Id>)

  function WithEdge(graph: map<Id, set<Id>>, from: Id, to: Id): map<Id, set<Id>> {
    if from in graph then graph[from := graph[from] + {to}] else graph
  }

  function WithNode(graph: map<Id, set<Id>>, x: Id): map<Id, set<Id>> {
    if x in graph then graph else graph[x := {}]
  }

  function Refusal(t: Tree, r: Record, locked: Lock): Option<Error> {
    if r.depth > |t.stack| || (r.depth == 0 && t.stack != []) then Some(InvalidDepth)
    else if r.identity !in locked then Some(NotLocked)
    else if !r.placed then Some(WrongSource)
    else if r.repeat && r.identity !in t.facts then Some(RepeatBeforeDefinition)
    else if r.identity in t.facts && t.facts[r.identity] != Facts(locked[r.identity], r.license, r.features)
    then Some(InconsistentFacts)
    else None
  }

  function Added(t: Tree, r: Record, locked: Lock): Tree
    requires Refusal(t, r, locked).None?
  {
    var graph := WithNode(t.graph, r.identity);
    Tree(if r.depth > 0 then WithEdge(graph, t.stack[r.depth - 1], r.identity) else graph,
         t.facts[r.identity := Facts(locked[r.identity], r.license, r.features)],
         t.stack[..r.depth] + [r.identity])
  }

  /** The records read one after the other, from a tree read so far. */
  function Read(t: Tree, records: seq<Record>, locked: Lock): Result<Tree, Error>
    decreases |records|
  {
    if records == [] then Ok(t)
    else
      match Refusal(t, records[0], locked)
      case Some(e) => Err(e)
      case None => Read(Added(t, records[0], locked), records[1..], locked)
  }

  const EMPTY := Tree(map[], map[], [])

  function TreeGraph(records: seq<Record>, locked: Lock): Result<Tree, Error> {
    match Read(EMPTY, records, locked)
    case Err(e) => Err(e)
    case Ok(t) => if t.stack == [] || !(ROOT_PREFIX <= t.stack[0]) then Err(WrongRoot) else Ok(t)
  }

  // ----- Whatever is accepted hangs together

  ghost function Edges(graph: map<Id, set<Id>>): Graph {
    x => if x in graph then graph[x] else {}
  }

  ghost predicate Within(g: Graph, h: Graph) {
    forall x :: g(x) <= h(x)
  }

  lemma ReachesMore(g: Graph, h: Graph, a: Id, b: Id)
    requires Within(g, h) && Reaches(g, a, b)
    ensures Reaches(h, a, b)
  {
    var p :| PathBetween(g, a, b, p);
    assert PathBetween(h, a, b, p);
  }

  /** The stack is a path, and every node is reached from its first element. */
  ghost predicate Rooted(t: Tree) {
    && t.facts.Keys == t.graph.Keys
    && (t.stack == [] ==> t.graph == map[])
    && (forall i | 0 <= i < |t.stack| :: t.stack[i] in t.graph)
    && (forall i | 0 <= i < |t.stack| - 1 :: t.stack[i + 1] in t.graph[t.stack[i]])
    && (forall x, y | x in t.graph && y in t.graph[x] :: y in t.graph)
    && (forall x | x in t.graph :: t.stack != [] && Reaches(Edges(t.graph), t.stack[0], x))
  }

  lemma AddedReaches(t: Tree, r: Record, locked: Lock, x: Id)
    requires Rooted(t) && Refusal(t, r, locked).None? && x in Added(t, r, locked).graph
    ensures Reaches(Edges(Added(t, r, locked).graph), Added(t, r, locked).stack[0], x)
  {
    var v := Added(t, r, locked);
    var g, h := Edges(t.graph), Edges(v.graph);
    if x in t.graph && r.depth > 0 {
      assert Within(g, h);
      ReachesMore(g, h, t.stack[0], x);
    } else if r.depth == 0 {
      ReachesSelf(h, x);
    } else {
      var parent := t.stack[r.depth - 1];
      assert Within(g, h);
      ReachesMore(g, h, t.stack[0], parent);
      ReachesSelf(h, x);
      ReachesStep(h, parent, x, x);
      ReachesTrans(h, t.stack[0], parent, x);
    }
  }

  /** The stack stays a path, and edges lead to nodes that are there. */
  lemma AddedFits(t: Tree, r: Record, locked: Lock)
    requires Rooted(t) && Refusal(t, r, locked).None?
    ensures var v := Added(t, r, locked);
            && v.facts.Keys == v.graph.Keys && v.stack != []
            && (forall i | 0 <= i < |v.stack| :: v.stack[i] in v.graph)
            && (forall x, y | x in v.graph && y in v.graph[x] :: y in v.graph)
  {
  }

  lemma AddedPath(t: Tree, r: Record, locked: Lock)
    requires Rooted(t) && Refusal(t, r, locked).None?
    ensures var v := Added(t, r, locked);
            forall i | 0 <= i < |v.stack| - 1 ::
              v.stack[i] in v.graph && v.stack[i + 1] in v.graph[v.stack[i]]
  {
  }

  lemma AddedRooted(t: Tree, r: Record, locked: Lock)
    requires Rooted(t) && Refusal(t, r, locked).None?
    ensures Rooted(Added(t, r, locked))
  {
    AddedFits(t, r, locked);
    AddedPath(t, r, locked);
    var v := Added(t, r, locked);
    forall x | x in v.graph ensures Reaches(Edges(v.graph), v.stack[0], x) {
      AddedReaches(t, r, locked, x);
    }
  }

  lemma {:induction false} ReadRooted(t: Tree, records: seq<Record>, locked: Lock)
    requires Rooted(t) && Read(t, records, locked).Ok?
    ensures Rooted(Read(t, records, locked).value)
    ensures t.stack != [] ==>
              Read(t, records, locked).value.stack != [] && Read(t, records, locked).value.stack[0] == t.stack[0]
    decreases |records|
  {
    if records != [] {
      AddedRooted(t, records[0], locked);
      ReadRooted(Added(t, records[0], locked), records[1..], locked);
    }
  }

  /** Of any accepted text: the root is the first record, every node is reached
      from it, and edges lead only to nodes that are there and have facts. */
  lemma AcceptedTreeIsRooted(records: seq<Record>, locked: Lock)
    requires TreeGraph(records, locked).Ok?
    ensures var t := TreeGraph(records, locked).value;
            && records != [] && t.stack != [] && t.stack[0] == records[0].identity && t.stack[0] in t.graph
            && t.facts.Keys == t.graph.Keys
            && (forall x | x in t.graph :: Reaches(Edges(t.graph), t.stack[0], x))
            && (forall x, y | x in t.graph && y in t.graph[x] :: y in t.graph)
  {
    ReadRooted(EMPTY, records, locked);
    var first := Added(EMPTY, records[0], locked);
    AddedRooted(EMPTY, records[0], locked);
    ReadRooted(first, records[1..], locked);
  }
}
