/** Windows environment blocks: NUL-separated `name=value` entries read into a
    dictionary that ignores case, and two of them merged into one block. */
module EnvironmentBlock {
  import opened Wrappers
  import opened Ordinal
  import opened Splitting

  const NUL := 0 as char
  const BOUND := 32767

  datatype Variable = Variable(name: string, value: string)

  datatype Error = EntryShape | EmbeddedNul | TooLong

  /** How the comparison folds one character; the rest holds for every folding. */
  type Folding = char -> char

  function Folded(fold: Folding, s: string): string { seq(|s|, i requires 0 <= i < |s| => fold(s[i])) }

  // ----- The sorted dictionary

  type Variables = seq<Variable>

  ghost predicate Sorted(fold: Folding, vs: Variables) {
    forall i, j | 0 <= i < j < |vs| :: Less(Folded(fold, vs[i].name), Folded(fold, vs[j].name))
  }

  /** Assignment: a name that is there keeps its spelling and takes the value. */
  function Assigned(fold: Folding, vs: Variables, v: Variable): Variables {
    if vs == [] then [v]
    else if Folded(fold, v.name) == Folded(fold, vs[0].name) then [Variable(vs[0].name, v.value)] + vs[1..]
    else if Less(Folded(fold, v.name), Folded(fold, vs[0].name)) then [v] + vs
    else [vs[0]] + Assigned(fold, vs[1..], v)
  }

  function AssignedAll(fold: Folding, vs: Variables, more: Variables): Variables
    decreases |more|
  {
    if more == [] then vs else AssignedAll(fold, Assigned(fold, vs, more[0]), more[1..])
  }

  /** The variable of a name, in any case. */
  function Find(fold: Folding, vs: Variables, name: string): Option<Variable> {
    if vs == [] then None
    else if Folded(fold, vs[0].name) == Folded(fold, name) then Some(vs[0])
    else Find(fold, vs[1..], name)
  }

  // ----- Reading a block

  function IndexOf(s: string, c: char, from: nat): (r: Option<nat>)
    ensures r.Some? ==> from <= r.value < |s|
    decreases |s| - from
  {
    if from >= |s| then None else if s[from] == c then Some(from) else IndexOf(s, c, from + 1)
  }

  /** The sign after the first character ends the name; later signs belong to the value. */
  function ParseEntry(entry: string): Option<Variable> {
    match IndexOf(entry, '=', 1)
    case None => None
    case Some(split) => Some(Variable(entry[..split], entry[split + 1..]))
  }

  function ParseEntries(fold: Folding, entries: seq<string>, vs: Variables): Result<Variables, Error>
    decreases |entries|
  {
    if entries == [] then Ok(vs)
    else if entries[0] == "" then ParseEntries(fold, entries[1..], vs)
    else
      match ParseEntry(entries[0])
      case None => Err(EntryShape)
      case Some(v) => ParseEntries(fold, entries[1..], Assigned(fold, vs, v))
  }

  function Parsed(fold: Folding, block: string): Result<Variables, Error> {
    ParseEntries(fold, Split(block, NUL), [])
  }

  method ParseBlock(fold: Folding, block: string) returns (r: Result<Variables, Error>)
    ensures r == Parsed(fold, block)
  {
    var values: Variables := [];
    var entries := Split(block, NUL);
    for i := 0 to |entries|
      invariant ParseEntries(fold, entries[i..], values) == Parsed(fold, block)
    {
      assert entries[i..][1..] == entries[i + 1..];
      if entries[i] != "" {
        var variable := ParseEntry(entries[i]);
        if variable.None? {
          return Err(EntryShape);
        }
        values := Assigned(fold, values, variable.value);
      }
    }
    return Ok(values);
  }

  // ----- Merging two blocks

  function Written(vs: Variables): string {
    if vs == [] then "" else vs[0].name + "=" + vs[0].value + [NUL] + Written(vs[1..])
  }

  predicate Writable(v: Variable) { NUL !in v.name && NUL !in v.value }

  predicate FreeOfNul(vs: Variables) { forall i | 0 <= i < |vs| :: Writable(vs[i]) }

  function Block(vs: Variables): Result<string, Error> {
    if !FreeOfNul(vs) then Err(EmbeddedNul)
    else if |Written(vs)| + 1 >= BOUND then Err(TooLong)
    else Ok(Written(vs) + [NUL])
  }

  function Merged(fold: Folding, user: string, fixedValues: string): Result<string, Error> {
    match Parsed(fold, user)
    case Err(e) => Err(e)
    case Ok(own) =>
      match Parsed(fold, fixedValues)
      case Err(e) => Err(e)
      case Ok(fixed) =>
        Block(AssignedAll(fold, own, fixed))
  }

  method MergeBlocks(fold: Folding, user: string, fixedValues: string) returns (r: Result<string, Error>)
    ensures r == Merged(fold, user, fixedValues)
  {
    var own := ParseBlock(fold, user);
    if own.Err? {
      return Err(own.error);
    }
    var fixed := ParseBlock(fold, fixedValues);
    if fixed.Err? {
      return Err(fixed.error);
    }
    var merged := own.value;
    for i := 0 to |fixed.value|
      invariant AssignedAll(fold, merged, fixed.value[i..]) == AssignedAll(fold, own.value, fixed.value)
    {
      assert fixed.value[i..][1..] == fixed.value[i + 1..];
      merged := Assigned(fold, merged, fixed.value[i]);
    }
    r := WriteBlock(merged);
  }

  method WriteBlock(vs: Variables) returns (r: Result<string, Error>)
    ensures r == Block(vs)
  {
    var result := "";
    for i := 0 to |vs|
      invariant forall j | 0 <= j < i :: Writable(vs[j])
      invariant result + Written(vs[i..]) == Written(vs)
    {
      if !Writable(vs[i]) {
        return Err(EmbeddedNul);
      }
      WriteOne(result, vs, i);
      result := result + vs[i].name + "=" + vs[i].value + [NUL];
    }
    assert result + "" == result;
    result := result + [NUL];
    return if |result| >= BOUND then Err(TooLong) else Ok(result);
  }

  lemma WriteOne(result: string, vs: Variables, i: nat)
    requires i < |vs|
    ensures result + Written(vs[i..]) == result + vs[i].name + "=" + vs[i].value + [NUL] + Written(vs[i + 1..])
  {
    assert vs[i..][1..] == vs[i + 1..];
    var v, rest := vs[i], Written(vs[i + 1..]);
    assert result + (v.name + "=" + v.value + [NUL] + rest) == result + v.name + "=" + v.value + [NUL] + rest;
  }

  // ----- What is parsed is sorted and well shaped

  /** A name as an entry gives it: not empty, and no sign after its first character. */
  predicate Named(v: Variable) {
    v.name != "" && '=' !in v.name[1..] && Writable(v)
  }

  ghost predicate AllNamed(vs: Variables) { forall i | 0 <= i < |vs| :: Named(vs[i]) }

  lemma {:induction false} FirstSign(s: string, from: nat)
    ensures var r := IndexOf(s, '=', from);
            r.Some? ==> from <= r.value < |s| && s[r.value] == '=' && '=' !in s[from..r.value]
    decreases |s| - from
  {
    if from < |s| && s[from] != '=' {
      FirstSign(s, from + 1);
      var r := IndexOf(s, '=', from);
      if r.Some? {
        assert s[from..r.value] == [s[from]] + s[from + 1..r.value];
      }
    }
  }

  lemma EntryNamed(entry: string)
    requires NUL !in entry && ParseEntry(entry).Some?
    ensures Named(ParseEntry(entry).value)
  {
    FirstSign(entry, 1);
    var split := IndexOf(entry, '=', 1).value;
    assert entry[..split][1..] == entry[1..split];
  }

  lemma {:induction false} AssignedKeeps(fold: Folding, vs: Variables, v: Variable)
    requires Sorted(fold, vs) && AllNamed(vs) && Named(v)
    ensures Sorted(fold, Assigned(fold, vs, v)) && AllNamed(Assigned(fold, vs, v))
    ensures forall i | 0 <= i < |Assigned(fold, vs, v)| ::
              Folded(fold, Assigned(fold, vs, v)[i].name) == Folded(fold, v.name)
              || exists j :: 0 <= j < |vs| && vs[j].name == Assigned(fold, vs, v)[i].name
  {
    if vs != [] {
      var f, g := Folded(fold, v.name), Folded(fold, vs[0].name);
      if f != g && Less(f, g) {
        forall j | 0 <= j < |vs| ensures Less(f, Folded(fold, vs[j].name)) {
          if j > 0 {
            LessTrans(f, g, Folded(fold, vs[j].name));
          }
        }
      } else if f != g {
        LessTotal(f, g);
        AssignedKeeps(fold, vs[1..], v);
      }
    }
  }

  lemma {:induction false} ParseKeeps(fold: Folding, entries: seq<string>, vs: Variables)
    requires Sorted(fold, vs) && AllNamed(vs) && forall i | 0 <= i < |entries| :: NUL !in entries[i]
    requires ParseEntries(fold, entries, vs).Ok?
    ensures Sorted(fold, ParseEntries(fold, entries, vs).value) && AllNamed(ParseEntries(fold, entries, vs).value)
    decreases |entries|
  {
    if entries != [] {
      if entries[0] == "" {
        ParseKeeps(fold, entries[1..], vs);
      } else {
        EntryNamed(entries[0]);
        var v := ParseEntry(entries[0]).value;
        AssignedKeeps(fold, vs, v);
        ParseKeeps(fold, entries[1..], Assigned(fold, vs, v));
      }
    }
  }

  lemma {:induction false} AssignedAllKeeps(fold: Folding, vs: Variables, more: Variables)
    requires Sorted(fold, vs) && AllNamed(vs) && AllNamed(more)
    ensures Sorted(fold, AssignedAll(fold, vs, more)) && AllNamed(AssignedAll(fold, vs, more))
    decreases |more|
  {
    if more != [] {
      AssignedKeeps(fold, vs, more[0]);
      AssignedAllKeeps(fold, Assigned(fold, vs, more[0]), more[1..]);
    }
  }

  // ----- What is written reads back

  lemma {:induction false} SignAt(s: string, from: nat, k: nat)
    requires from <= k < |s| && s[k] == '=' && '=' !in s[from..k]
    ensures IndexOf(s, '=', from) == Some(k)
    decreases k - from
  {
    if from < k {
      assert s[from] == s[from..k][0];
      assert s[from..k][1..] == s[from + 1..k];
      SignAt(s, from + 1, k);
    }
  }

  lemma EntryReadsBack(v: Variable)
    requires Named(v)
    ensures ParseEntry(v.name + "=" + v.value) == Some(v)
  {
    var s := v.name + "=" + v.value;
    assert s[1..|v.name|] == v.name[1..];
    SignAt(s, 1, |v.name|);
    assert s[..|v.name|] == v.name && s[|v.name| + 1..] == v.value;
  }

  lemma {:induction false} AssignedLast(fold: Folding, vs: Variables, v: Variable)
    requires forall i | 0 <= i < |vs| :: Less(Folded(fold, vs[i].name), Folded(fold, v.name))
    ensures Assigned(fold, vs, v) == vs + [v]
  {
    if vs != [] {
      var f, g := Folded(fold, v.name), Folded(fold, vs[0].name);
      LessIrreflexive(g);
      if Less(f, g) {
        LessTrans(g, f, g);
        assert false;
      }
      AssignedLast(fold, vs[1..], v);
    }
  }

  function Text(v: Variable): string { v.name + "=" + v.value }

  /** The entries of a block that was written, and the empty ones after them. */
  function Texts(vs: Variables): seq<string> {
    if vs == [] then ["", ""] else [Text(vs[0])] + Texts(vs[1..])
  }

  lemma {:induction false} WrittenSplits(vs: Variables)
    requires AllNamed(vs)
    ensures Split(Written(vs) + [NUL], NUL) == Texts(vs)
  {
    if vs == [] {
      assert Written(vs) + [NUL] == "" + [NUL] + "";
      SplitFirst("", NUL, "");
    } else {
      var rest := Written(vs[1..]) + [NUL];
      assert Written(vs) + [NUL] == Text(vs[0]) + [NUL] + rest;
      SplitFirst(Text(vs[0]), NUL, rest);
      WrittenSplits(vs[1..]);
    }
  }

  lemma BeforeFirst(fold: Folding, before: Variables, vs: Variables)
    requires Sorted(fold, before + vs) && vs != []
    ensures forall i | 0 <= i < |before| :: Less(Folded(fold, before[i].name), Folded(fold, vs[0].name))
  {
    forall i | 0 <= i < |before| ensures Less(Folded(fold, before[i].name), Folded(fold, vs[0].name)) {
      assert (before + vs)[i] == before[i] && (before + vs)[|before|] == vs[0];
    }
  }

  lemma FirstText(fold: Folding, v: Variable, texts: seq<string>, vs: Variables)
    requires Named(v)
    ensures ParseEntries(fold, [Text(v)] + texts, vs) == ParseEntries(fold, texts, Assigned(fold, vs, v))
  {
    EntryReadsBack(v);
    assert ([Text(v)] + texts)[1..] == texts;
  }

  lemma {:induction false} TextsReadBack(fold: Folding, before: Variables, vs: Variables)
    requires Sorted(fold, before + vs) && AllNamed(vs)
    ensures ParseEntries(fold, Texts(vs), before) == Ok(before + vs)
    decreases |vs|
  {
    if vs == [] {
      assert before + vs == before;
      assert ["", ""][1..] == [""] && [""][1..] == [];
    } else {
      BeforeFirst(fold, before, vs);
      AssignedLast(fold, before, vs[0]);
      assert before + [vs[0]] + vs[1..] == before + vs;
      TextsReadBack(fold, before + [vs[0]], vs[1..]);
      FirstText(fold, vs[0], Texts(vs[1..]), before);
    }
  }

  // ----- What a merge means

  lemma {:induction false} FindAssigned(fold: Folding, vs: Variables, v: Variable, name: string)
    requires Sorted(fold, vs)
    ensures Find(fold, Assigned(fold, vs, v), name)
         == if Folded(fold, name) != Folded(fold, v.name) then Find(fold, vs, name)
            else match Find(fold, vs, name)
                 case None => Some(v)
                 case Some(own) => Some(Variable(own.name, v.value))
  {
    if vs != [] {
      var f, g := Folded(fold, v.name), Folded(fold, vs[0].name);
      if f != g && Less(f, g) {
        NotFound(fold, vs, v.name);
        assert ([v] + vs)[1..] == vs;
        if Folded(fold, name) == f {
          SameFound(fold, vs, name, v.name);
        }
      } else if f != g {
        FindAssigned(fold, vs[1..], v, name);
        assert ([vs[0]] + Assigned(fold, vs[1..], v))[1..] == Assigned(fold, vs[1..], v);
      } else {
        assert ([Variable(vs[0].name, v.value)] + vs[1..])[1..] == vs[1..];
      }
    }
  }

  lemma {:induction false} SameFound(fold: Folding, vs: Variables, a: string, b: string)
    requires Folded(fold, a) == Folded(fold, b)
    ensures Find(fold, vs, a) == Find(fold, vs, b)
  {
    if vs != [] {
      SameFound(fold, vs[1..], a, b);
    }
  }

  lemma {:induction false} NotFound(fold: Folding, vs: Variables, name: string)
    requires Sorted(fold, vs) && (vs != [] ==> Less(Folded(fold, name), Folded(fold, vs[0].name)))
    ensures Find(fold, vs, name) == None
  {
    if vs != [] {
      LessIrreflexive(Folded(fold, name));
      if |vs| > 1 {
        LessTrans(Folded(fold, name), Folded(fold, vs[0].name), Folded(fold, vs[1].name));
      }
      NotFound(fold, vs[1..], name);
    }
  }

  /** A merged variable: the fixed value if there is one, else the user's own, in
      the user's spelling if the user has the name at all. */
  function Override(own: Option<Variable>, fixed: Option<Variable>): Option<Variable> {
    match fixed
    case None => own
    case Some(f) => if own.Some? then Some(Variable(own.value.name, f.value)) else fixed
  }

  lemma {:induction false} FindAssignedAll(fold: Folding, vs: Variables, more: Variables, name: string)
    requires Sorted(fold, vs) && AllNamed(vs) && Sorted(fold, more) && AllNamed(more)
    ensures Find(fold, AssignedAll(fold, vs, more), name) == Override(Find(fold, vs, name), Find(fold, more, name))
    decreases |more|
  {
    if more != [] {
      AssignedKeeps(fold, vs, more[0]);
      FindAssigned(fold, vs, more[0], name);
      FindAssignedAll(fold, Assigned(fold, vs, more[0]), more[1..], name);
      NotFound(fold, more[1..], more[0].name);
      if Folded(fold, name) == Folded(fold, more[0].name) {
        SameFound(fold, more[1..], name, more[0].name);
      }
    }
  }

  /** Merging fails exactly if a block has a bad entry or the result is too long.
      Otherwise reading the merged block back gives the user's variables overridden
      by the fixed ones, whatever the case of the names, and in order. */
  lemma MergedReadsBack(fold: Folding, user: string, fixedValues: string)
    ensures Merged(fold, user, fixedValues).Err? <==>
              || Parsed(fold, user).Err? || Parsed(fold, fixedValues).Err?
              || |Written(AssignedAll(fold, Parsed(fold, user).value, Parsed(fold, fixedValues).value))| + 1 >= BOUND
    ensures Merged(fold, user, fixedValues).Ok? ==>
              && Parsed(fold, user).Ok? && Parsed(fold, fixedValues).Ok?
              && var r := Parsed(fold, Merged(fold, user, fixedValues).value);
                 && r.Ok? && Sorted(fold, r.value)
                 && forall name ::
                      Find(fold, r.value, name) == Override(Find(fold, Parsed(fold, user).value, name),
                                                            Find(fold, Parsed(fold, fixedValues).value, name))
  {
    if Parsed(fold, user).Ok? && Parsed(fold, fixedValues).Ok? {
      var own, fixed := Parsed(fold, user).value, Parsed(fold, fixedValues).value;
      ParseKeeps(fold, Split(user, NUL), []);
      ParseKeeps(fold, Split(fixedValues, NUL), []);
      AssignedAllKeeps(fold, own, fixed);
      var merged := AssignedAll(fold, own, fixed);
      assert [] + merged == merged;
      WrittenSplits(merged);
      TextsReadBack(fold, [], merged);
      forall name ensures Find(fold, merged, name) == Override(Find(fold, own, name), Find(fold, fixed, name)) {
        FindAssignedAll(fold, own, fixed, name);
      }
    }
  }
}
