/** Cargo's tree as text: the loop that reads it, what holds of any text it
    accepts, and the round trip of a printed graph. */
module CargoText {
  import opened Wrappers
  import opened TextLines
  import opened Graphs
  import opened Ordinal
  import opened CargoTree
  import opened CargoLine
  import opened CargoPrinter

  /** The lock file, and which paths lie within the reviewed source. */
  datatype Source = Source(locked: Lock, inside: string -> bool)

  function ReadText(t: Tree, lines: seq<string>, src: Source): Result<Tree, Error>
    decreases |lines|
  {
    if lines == [] then Ok(t)
    else
      match RecordOf(lines[0], src.locked, src.inside)
      case None => Err(Unrecognized)
      case Some(r) =>
        match Refusal(t, r, src.locked)
        case Some(e) => Err(e)
        case None => ReadText(Added(t, r, src.locked), lines[1..], src)
  }

  function TextGraph(text: string, src: Source): Result<Tree, Error> {
    match ReadText(EMPTY, SplitLines(text, ""), src)
    case Err(e) => Err(e)
    case Ok(t) => if t.stack == [] || !(ROOT_PREFIX <= t.stack[0]) then Err(WrongRoot) else Ok(t)
  }

  method ParseTree(text: string, src: Source) returns (r: Result<Tree, Error>)
    ensures r == TextGraph(text, src)
  {
    var graph: map<Id, set<Id>>, facts: map<Id, Facts>, stack: seq<Id> := map[], map[], [];
    var lines := SplitLines(text, "");
    for i := 0 to |lines|
      invariant ReadText(Tree(graph, facts, stack), lines[i..], src) == ReadText(EMPTY, lines, src)
    {
      assert lines[i..][1..] == lines[i + 1..];
      var matched := RecordOf(lines[i], src.locked, src.inside);
      if matched.None? {
        return Err(Unrecognized);
      }
      var line := matched.value;
      var refused := Refusal(Tree(graph, facts, stack), line, src.locked);
      if refused.Some? {
        return Err(refused.value);
      }
      facts := facts[line.identity := Facts(src.locked[line.identity], line.license, line.features)];
      if line.identity !in graph {
        graph := graph[line.identity := {}];
      }
      if line.depth > 0 {
        graph := WithEdge(graph, stack[line.depth - 1], line.identity);
      }
      stack := stack[..line.depth] + [line.identity];
    }
    if stack == [] || !(ROOT_PREFIX <= stack[0]) {
      return Err(WrongRoot);
    }
    return Ok(Tree(graph, facts, stack));
  }

  // ----- The records in a text

  function RecordsOf(lines: seq<string>, src: Source): Option<seq<Record>> {
    if lines == [] then Some([])
    else if RecordOf(lines[0], src.locked, src.inside).None? || RecordsOf(lines[1..], src).None? then None
    else Some([RecordOf(lines[0], src.locked, src.inside).value] + RecordsOf(lines[1..], src).value)
  }

  lemma {:induction false} TextIsRecords(t: Tree, lines: seq<string>, src: Source)
    ensures RecordsOf(lines, src).Some? ==> ReadText(t, lines, src) == Read(t, RecordsOf(lines, src).value, src.locked)
    ensures ReadText(t, lines, src).Ok? ==> RecordsOf(lines, src).Some?
    decreases |lines|
  {
    if lines != [] && RecordOf(lines[0], src.locked, src.inside).Some? {
      var r := RecordOf(lines[0], src.locked, src.inside).value;
      if Refusal(t, r, src.locked).None? {
        TextIsRecords(Added(t, r, src.locked), lines[1..], src);
      }
      if RecordsOf(lines[1..], src).Some? {
        ReadFirst(t, r, RecordsOf(lines[1..], src).value, src.locked);
      }
    }
  }

  lemma ReadFirst(t: Tree, r: Record, rest: seq<Record>, locked: Lock)
    ensures Read(t, [r] + rest, locked)
         == match Refusal(t, r, locked) case Some(e) => Err(e) case None => Read(Added(t, r, locked), rest, locked)
  {
    assert ([r] + rest)[1..] == rest;
  }

  // ----- What holds of any text that is accepted

  /** A package of the tree: no query in its identity, and its lock entry, which
      for a registry package has a checksum. */
  predicate Vouched(x: Id, f: Facts, locked: Lock) {
    && Plainly(x) && x in locked && f.lock == locked[x]
    && (f.lock.source != "" ==> Hex(f.lock.checksum))
  }

  ghost predicate AllVouched(t: Tree, locked: Lock) { forall x | x in t.facts :: Vouched(x, t.facts[x], locked) }

  lemma {:induction false} ReadVouched(t: Tree, lines: seq<string>, src: Source)
    requires AllVouched(t, src.locked) && ReadText(t, lines, src).Ok?
    ensures AllVouched(ReadText(t, lines, src).value, src.locked)
    decreases |lines|
  {
    if lines != [] {
      var r := RecordOf(lines[0], src.locked, src.inside).value;
      RecordIsPlain(lines[0], src.locked, src.inside);
      ReadVouched(Added(t, r, src.locked), lines[1..], src);
    }
  }

  /** Of any accepted text: the stack starts at the root, every node is reached
      from it, edges lead only to nodes that are there, and each has facts that
      the lock file vouches for. */
  lemma AcceptedTextIsRooted(text: string, src: Source)
    requires TextGraph(text, src).Ok?
    ensures var t := TextGraph(text, src).value;
            && t.stack != [] && t.stack[0] in t.graph && t.facts.Keys == t.graph.Keys && AllVouched(t, src.locked)
            && (forall x | x in t.graph :: Reaches(Edges(t.graph), t.stack[0], x))
            && (forall x, y | x in t.graph && y in t.graph[x] :: y in t.graph)
  {
    var lines := SplitLines(text, "");
    TextIsRecords(EMPTY, lines, src);
    AcceptedTreeIsRooted(RecordsOf(lines, src).value, src.locked);
    ReadVouched(EMPTY, lines, src);
  }

  // ----- The round trip

  /** How every package of a graph is spelled. */
  ghost predicate SpelledBy(g: Dag, spell: map<Id, Spelling>, inside: string -> bool) {
    forall x | x in g.children ::
      && x in spell && x in g.facts && x == Ref(spell[x].name, spell[x].version) && Spells(spell[x], g.facts[x], inside)
  }

  /** A record that a printer of the graph writes. */
  predicate Printed(g: Dag, r: Record) {
    r.identity in g.children && r.identity in g.facts
    && r == Record(r.depth, r.identity, g.facts[r.identity].license, g.facts[r.identity].features, r.repeat, true)
  }

  ghost predicate AllPrinted(g: Dag, records: seq<Record>) { forall i | 0 <= i < |records| :: Printed(g, records[i]) }

  lemma PrintedAppend(g: Dag, a: seq<Record>, b: seq<Record>)
    requires AllPrinted(g, a) && AllPrinted(g, b)
    ensures AllPrinted(g, a + b)
  {
  }

  lemma {:induction false} PrintWrites(g: Dag, x: Id, depth: nat, seen: set<Id>)
    requires Valid(g) && x in g.children
    ensures AllPrinted(g, Print(g, x, depth, seen).0)
    decreases g.rank[x]
  {
    if x !in seen {
      PrintAllWrites(g, g.children[x], g.rank[x], depth + 1, seen + {x});
      PrintedAppend(g, [Line(g, x, depth, false)], PrintAll(g, g.children[x], g.rank[x], depth + 1, seen + {x}).0);
    }
  }

  lemma {:induction false} PrintAllWrites(g: Dag, xs: seq<Id>, bound: nat, depth: nat, seen: set<Id>)
    requires Valid(g) && forall i | 0 <= i < |xs| :: xs[i] in g.children && g.rank[xs[i]] < bound
    ensures AllPrinted(g, PrintAll(g, xs, bound, depth, seen).0)
    decreases bound, |xs|
  {
    if xs != [] {
      var first := Print(g, xs[0], depth, seen);
      PrintWrites(g, xs[0], depth, seen);
      PrintAllWrites(g, xs[1..], bound, depth, first.1);
      PrintedAppend(g, first.0, PrintAll(g, xs[1..], bound, depth, first.1).0);
    }
  }

  /** The line that is printed for a record of the graph. */
  ghost function Writer(g: Dag, spell: map<Id, Spelling>): Record -> string {
    r => if Printed(g, r) && r.identity in spell
         then LineText(r.depth, spell[r.identity], g.facts[r.identity], r.repeat) else ""
  }

  function Spelled(write: Record -> string, records: seq<Record>): seq<string> {
    if records == [] then [] else [write(records[0])] + Spelled(write, records[1..])
  }

  /** The lines have no breaks within them and give exactly the records. */
  ghost predicate Gives(lines: seq<string>, records: seq<Record>, src: Source) {
    RecordsOf(lines, src) == Some(records) && forall i | 0 <= i < |lines| :: Plain(lines[i])
  }

  lemma WriterGives(g: Dag, spell: map<Id, Spelling>, r: Record, src: Source)
    requires Printed(g, r) && SpelledBy(g, spell, src.inside) && Locks(g, src.locked)
    ensures Plain(Writer(g, spell)(r)) && RecordOf(Writer(g, spell)(r), src.locked, src.inside) == Some(r)
  {
    LineReadsBack(r.depth, spell[r.identity], g.facts[r.identity], r.repeat, src.locked, src.inside);
  }

  lemma OneMoreGives(line: string, lines: seq<string>, r: Record, records: seq<Record>, src: Source)
    requires Plain(line) && RecordOf(line, src.locked, src.inside) == Some(r) && Gives(lines, records, src)
    ensures Gives([line] + lines, [r] + records, src)
  {
    assert ([line] + lines)[1..] == lines;
  }

  ghost predicate Writes(write: Record -> string, r: Record, src: Source) {
    Plain(write(r)) && RecordOf(write(r), src.locked, src.inside) == Some(r)
  }

  lemma {:induction false} SpelledReadsBack(write: Record -> string, records: seq<Record>, src: Source)
    requires forall i | 0 <= i < |records| :: Writes(write, records[i], src)
    ensures Gives(Spelled(write, records), records, src)
  {
    if records != [] {
      var r, rest := records[0], records[1..];
      assert Writes(write, r, src);
      SpelledReadsBack(write, rest, src);
      OneMoreGives(write(r), Spelled(write, rest), r, rest, src);
      assert records == [r] + rest;
    }
  }

  lemma TextGives(lines: seq<string>, records: seq<Record>, src: Source)
    requires Gives(lines, records, src)
    ensures TextGraph(Unlines(lines), src) == TreeGraph(records, src.locked)
  {
    LinesReadBack(lines);
    TextIsRecords(EMPTY, lines, src);
  }

  /** For every acyclic graph and root, however its packages are spelled: the
      printed text is accepted, and reading it gives exactly the packages reached
      from the root, each with exactly its dependencies and its facts. */
  lemma PrintedTextReadsBack(g: Dag, root: Id, spell: map<Id, Spelling>, src: Source)
    requires Valid(g) && Locks(g, src.locked) && SpelledBy(g, spell, src.inside)
    requires root in g.children && ROOT_PREFIX <= root
    ensures var r := TextGraph(Unlines(Spelled(Writer(g, spell), Print(g, root, 0, {}).0)), src);
            && r.Ok?
            && (forall x :: x in r.value.graph <==> Reaches(Children(g), root, x))
            && (forall x | x in r.value.graph ::
                  x in g.children && r.value.graph[x] == Elements(g.children[x])
                  && x in r.value.facts && x in g.facts && r.value.facts[x] == g.facts[x])
  {
    var records := Print(g, root, 0, {}).0;
    PrintWrites(g, root, 0, {});
    var write := Writer(g, spell);
    forall i | 0 <= i < |records| ensures Writes(write, records[i], src) {
      assert Printed(g, records[i]);
      WriterGives(g, spell, records[i], src);
    }
    SpelledReadsBack(write, records, src);
    TextGives(Spelled(write, records), records, src);
    PrintedTreeReadsBack(g, root, src.locked);
  }
}
