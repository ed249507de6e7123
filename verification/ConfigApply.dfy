/** Applying planned configuration changes: any number of this tool's processes,
    each of which takes the lock file, compares the configuration with the bytes
    it planned from, stages the new file, compares again and replaces. Processes
    interleave freely and may crash anywhere, which leaves the lock in place.
    Editors outside the tool are not part of this machine. */
module ConfigApply {
  import opened Wrappers
  import opened Decimals
  import opened Splitting
  import opened Utf8
  import opened JsonText
  import opened JsonReadsBack
  import opened JsonMembers
  import opened ConfigPlan

  datatype Point = Planned | Locked | Compared | Staged | Ready | Releasing

  datatype Process = Process(edit: Edit, plan: Plan, at: Point)

  datatype World = World(
    file: Option<Bytes>,
    lock: Option<nat>,
    processes: map<nat, Process>,
    applied: seq<Edit>)           // the edits that replaced the file, in order

  datatype Step =
    | MakePlan(pid: nat, edit: Edit)
    | Acquire(pid: nat) | CompareFirst(pid: nat) | Stage(pid: nat) | CompareAgain(pid: nat)
    | Replace(pid: nat) | Raise(pid: nat) | Release(pid: nat)
    | Crash(pid: nat)

  predicate Holds(at: Point) { !at.Planned? }

  function Moved(w: World, p: nat, at: Point): World
    requires p in w.processes
  {
    w.(processes := w.processes[p := w.processes[p].(at := at)])
  }

  function Ended(w: World, p: nat): World {
    w.(processes := w.processes - {p})
  }

  /** The file still holds the bytes the plan was made from. */
  predicate Unchanged(repr: string -> string, w: World, plan: Plan) {
    Read(repr, w.file).Ok? && Read(repr, w.file).value.0 == plan.original
  }

  function Apply(repr: string -> string, w: World, s: Step): World {
    var p := s.pid;
    if s.MakePlan? then
      var r := PlanEdit(repr, w.file, s.edit);
      if p in w.processes || r.Err? then w
      else w.(processes := w.processes[p := Process(s.edit, r.value, Planned)])
    else if p !in w.processes then w
    else
      var q := w.processes[p];
      match (s, q.at)
      case (Acquire(_), Planned) =>
        if q.plan.action.Unchanged? || w.lock.Some? then Ended(w, p) else Moved(w, p, Locked).(lock := Some(p))
      case (CompareFirst(_), Locked) => Moved(w, p, if Unchanged(repr, w, q.plan) then Compared else Releasing)
      case (Stage(_), Compared) => Moved(w, p, Staged)
      case (CompareAgain(_), Staged) => Moved(w, p, if Unchanged(repr, w, q.plan) then Ready else Releasing)
      case (Replace(_), Ready) =>
        Moved(w, p, Releasing).(file := Some(q.plan.encoded), applied := w.applied + [q.edit])
      case (Raise(_), _) => if Holds(q.at) then Moved(w, p, Releasing) else Ended(w, p)
      case (Release(_), Releasing) => Ended(w, p).(lock := None)
      case (Crash(_), _) => Ended(w, p)
      case _ => w
  }

  function Run(repr: string -> string, w: World, steps: seq<Step>): World
    decreases |steps|
  {
    if steps == [] then w else Run(repr, Apply(repr, w, steps[0]), steps[1..])
  }

  function Start(file: Option<Bytes>): World {
    World(file, None, map[], [])
  }

  function EditAll(config: Members, edits: seq<Edit>): Members {
    if edits == [] then config else Edited(EditAll(config, edits[..|edits| - 1]), edits[|edits| - 1])
  }

  // ----- The lock, whatever the file holds

  ghost predicate Exclusive(repr: string -> string, w: World) {
    && (forall p | p in w.processes && Holds(w.processes[p].at) :: w.lock == Some(p))
    && (forall p | p in w.processes && w.processes[p].at in {Compared, Staged, Ready} ::
          Unchanged(repr, w, w.processes[p].plan))
  }

  lemma StepExcludes(repr: string -> string, w: World, s: Step)
    requires Exclusive(repr, w)
    ensures Exclusive(repr, Apply(repr, w, s))
  {
    var v := Apply(repr, w, s);
    assert s.Replace? || v.file == w.file;
    forall p | p in v.processes && Holds(v.processes[p].at) ensures v.lock == Some(p) {
      assert p == s.pid || (p in w.processes && v.processes[p] == w.processes[p]);
    }
    forall p | p in v.processes && v.processes[p].at in {Compared, Staged, Ready}
      ensures Unchanged(repr, v, v.processes[p].plan)
    {
      assert p == s.pid || (p in w.processes && v.processes[p] == w.processes[p]);
    }
  }

  lemma {:induction false} RunExcludes(repr: string -> string, w: World, steps: seq<Step>)
    requires Exclusive(repr, w)
    ensures Exclusive(repr, Run(repr, w, steps))
    decreases |steps|
  {
    if steps != [] {
      StepExcludes(repr, w, steps[0]);
      RunExcludes(repr, Apply(repr, w, steps[0]), steps[1..]);
    }
  }

  /** At most one process holds the lock. */
  lemma LockIsExclusive(repr: string -> string, file: Option<Bytes>, steps: seq<Step>, p: nat, q: nat)
    ensures var w := Run(repr, Start(file), steps);
            p in w.processes && q in w.processes && Holds(w.processes[p].at) && Holds(w.processes[q].at) ==> p == q
  {
    RunExcludes(repr, Start(file), steps);
  }

  /** A process that is about to replace the file replaces exactly the bytes it
      planned from, and by exactly the bytes it planned. */
  lemma ReplacesWhatWasReviewed(repr: string -> string, file: Option<Bytes>, steps: seq<Step>, p: nat)
    ensures var w := Run(repr, Start(file), steps);
            p in w.processes && w.processes[p].at == Ready ==>
              && Read(repr, w.file).Ok? && Read(repr, w.file).value.0 == w.processes[p].plan.original
              && Apply(repr, w, Replace(p)).file == Some(w.processes[p].plan.encoded)
  {
    RunExcludes(repr, Start(file), steps);
  }

  // ----- The file

  predicate ConfigIs(repr: string -> string, file: Option<Bytes>, config: Members) {
    Read(repr, file).Ok? && Read(repr, file).value.1 == config
  }

  /** The plan was made from some contents of the file. */
  ghost predicate PlanFits(repr: string -> string, p: Process) {
    exists file: Option<Bytes> :: PlanEdit(repr, file, p.edit) == Ok(p.plan)
  }

  /** The file holds all edits; but with an infinite number in the beginning it
      holds at most one, and then it cannot be read. */
  predicate FileFits(repr: string -> string, initial: Members, file: Option<Bytes>, edits: seq<Edit>) {
    && (FiniteMembers(EditAll(initial, edits)) <==> FiniteMembers(initial))
    && if FiniteMembers(initial) || edits == [] then ConfigIs(repr, file, EditAll(initial, edits))
       else Read(repr, file).Err? && |edits| == 1
  }

  ghost predicate Fits(repr: string -> string, initial: Members, w: World) {
    && FileFits(repr, initial, w.file, w.applied)
    && forall p | p in w.processes :: PlanFits(repr, w.processes[p])
  }

  lemma EmptyIsRefused(repr: string -> string)
    ensures Read(repr, Some([])) == Err(InvalidConfig)
  {
    assert Utf8.Decode([]) == Some("");
    assert Skip("") == "";
  }

  /** Equal bytes come from the same file. */
  lemma SameBytes(repr: string -> string, f: Option<Bytes>, g: Option<Bytes>)
    requires Read(repr, f).Ok? && Read(repr, g).Ok? && Read(repr, f).value.0 == Read(repr, g).value.0
    ensures f == g
  {
    EmptyIsRefused(repr);
  }

  lemma ReplaceFits(repr: string -> string, initial: Members, file: Option<Bytes>, edits: seq<Edit>, e: Edit)
    requires Settles(repr) && FileFits(repr, initial, file, edits) && PlanEdit(repr, file, e).Ok?
    ensures FileFits(repr, initial, Some(PlanEdit(repr, file, e).value.encoded), edits + [e])
  {
    assert (edits + [e])[..|edits|] == edits;
    PlanReadsBack(repr, file, e);
    ReadIsReadable(repr, file);
    EditedIsFinite(repr, EditAll(initial, edits), e);
  }

  lemma PlansStay(repr: string -> string, w: World, s: Step, p: nat)
    requires p in w.processes && p in Apply(repr, w, s).processes
    ensures var v := Apply(repr, w, s);
            v.processes[p].edit == w.processes[p].edit && v.processes[p].plan == w.processes[p].plan
  {
  }

  lemma NewPlanFits(repr: string -> string, w: World, s: Step, p: nat)
    requires p !in w.processes && p in Apply(repr, w, s).processes
    ensures PlanFits(repr, Apply(repr, w, s).processes[p])
  {
    assert s.MakePlan? && PlanEdit(repr, w.file, s.edit) == Ok(Apply(repr, w, s).processes[p].plan);
  }

  lemma SamePlanFits(repr: string -> string, p: Process, q: Process)
    requires PlanFits(repr, p) && q.edit == p.edit && q.plan == p.plan
    ensures PlanFits(repr, q)
  {
    var file: Option<Bytes> :| PlanEdit(repr, file, p.edit) == Ok(p.plan);
    assert PlanEdit(repr, file, q.edit) == Ok(q.plan);
  }

  lemma PlansFit(repr: string -> string, w: World, s: Step)
    requires forall p | p in w.processes :: PlanFits(repr, w.processes[p])
    ensures var v := Apply(repr, w, s); forall p | p in v.processes :: PlanFits(repr, v.processes[p])
  {
    var v := Apply(repr, w, s);
    forall p | p in v.processes ensures PlanFits(repr, v.processes[p]) {
      if p in w.processes {
        PlansStay(repr, w, s, p);
        SamePlanFits(repr, w.processes[p], v.processes[p]);
      } else {
        NewPlanFits(repr, w, s, p);
      }
    }
  }

  lemma StepFits(repr: string -> string, initial: Members, w: World, s: Step)
    requires Settles(repr) && Exclusive(repr, w) && Fits(repr, initial, w)
    ensures Fits(repr, initial, Apply(repr, w, s))
  {
    PlansFit(repr, w, s);
    if s.Replace? && s.pid in w.processes && w.processes[s.pid].at.Ready? {
      var q := w.processes[s.pid];
      var file: Option<Bytes> :| PlanEdit(repr, file, q.edit) == Ok(q.plan);
      SameBytes(repr, file, w.file);
      ReplaceFits(repr, initial, w.file, w.applied, q.edit);
    }
  }

  lemma {:induction false} RunFits(repr: string -> string, initial: Members, w: World, steps: seq<Step>)
    requires Settles(repr) && Exclusive(repr, w) && Fits(repr, initial, w)
    ensures Fits(repr, initial, Run(repr, w, steps))
    decreases |steps|
  {
    if steps != [] {
      StepFits(repr, initial, w, steps[0]);
      StepExcludes(repr, w, steps[0]);
      RunFits(repr, initial, Apply(repr, w, steps[0]), steps[1..]);
    }
  }

  /** Serialisability: the file holds the initial configuration with the edits of
      every completed replacement applied one after the other, if and only if that
      configuration holds no infinite number or nothing was replaced. Otherwise the
      one replacement left a file that the tool itself refuses. */
  lemma NoUpdateIsLost(repr: string -> string, file: Option<Bytes>, steps: seq<Step>)
    requires Settles(repr) && Read(repr, file).Ok?
    ensures var w, before := Run(repr, Start(file), steps), Read(repr, file).value.1;
            && (ConfigIs(repr, w.file, EditAll(before, w.applied)) <==> FiniteMembers(before) || w.applied == [])
            && (Read(repr, w.file).Ok? <==> FiniteMembers(before) || w.applied == [])
            && (FiniteMembers(before) || |w.applied| <= 1)
  {
    RunFits(repr, Read(repr, file).value.1, Start(file), steps);
  }

  /** A file that cannot be read stays as it is. */
  lemma {:induction false} UnreadableFileIsKept(repr: string -> string, file: Option<Bytes>, steps: seq<Step>)
    requires Read(repr, file).Err?
    ensures Run(repr, Start(file), steps) == Start(file)
    decreases |steps|
  {
    if steps != [] {
      assert Apply(repr, Start(file), steps[0]) == Start(file);
      UnreadableFileIsKept(repr, file, steps[1..]);
    }
  }

  lemma EditKeepsLookup(config: Members, e: Edit, name: Text)
    requires e.name != name
    ensures Lookup(Servers(Edited(config, e)), name) == Lookup(Servers(config), name)
  {
    EditPreservesTheRest(config, e);
    DropClears(Servers(config), e.name, name);
    DropClears(Servers(Edited(config, e)), e.name, name);
  }

  /** Edits change no server they do not name. */
  lemma {:induction false} EditAllPreservesTheRest(config: Members, edits: seq<Edit>, name: Text)
    requires forall i | 0 <= i < |edits| :: edits[i].name != name
    ensures Lookup(Servers(EditAll(config, edits)), name) == Lookup(Servers(config), name)
  {
    if edits != [] {
      EditAllPreservesTheRest(config, edits[..|edits| - 1], name);
      EditKeepsLookup(EditAll(config, edits[..|edits| - 1]), edits[|edits| - 1], name);
    }
  }

  /** And no key outside the server table, nor their order. */
  lemma {:induction false} OthersSurvive(config: Members, edits: seq<Edit>)
    ensures Drop(EditAll(config, edits), SERVERS) == Drop(config, SERVERS)
  {
    if edits != [] {
      OthersSurvive(config, edits[..|edits| - 1]);
      EditPreservesTheRest(EditAll(config, edits[..|edits| - 1]), edits[|edits| - 1]);
    }
  }

  /** So whenever the file can be read, all other keys are as they were, and so is
      every server that no completed edit named. */
  lemma OtherServersSurvive(repr: string -> string, file: Option<Bytes>, steps: seq<Step>, name: Text)
    requires Settles(repr) && Read(repr, file).Ok? && Read(repr, Run(repr, Start(file), steps).file).Ok?
    ensures var w, before := Run(repr, Start(file), steps), Read(repr, file).value.1;
            var after := Read(repr, w.file).value.1;
            && Drop(after, SERVERS) == Drop(before, SERVERS)
            && ((forall i | 0 <= i < |w.applied| :: w.applied[i].name != name) ==>
                  Lookup(Servers(after), name) == Lookup(Servers(before), name))
  {
    NoUpdateIsLost(repr, file, steps);
    var w, before := Run(repr, Start(file), steps), Read(repr, file).value.1;
    OthersSurvive(before, w.applied);
    if forall i | 0 <= i < |w.applied| :: w.applied[i].name != name {
      EditAllPreservesTheRest(before, w.applied, name);
    }
  }

  // ----- A change that nothing disturbs

  lemma RunFirst(repr: string -> string, w: World, s: Step, rest: seq<Step>)
    ensures Run(repr, w, [s] + rest) == Run(repr, Apply(repr, w, s), rest)
  {
    assert ([s] + rest)[1..] == rest;
  }

  function Replacing(p: nat): seq<Step> { [Replace(p)] + ([Release(p)] + []) }

  function Rechecking(p: nat): seq<Step> { [Stage(p)] + ([CompareAgain(p)] + Replacing(p)) }

  function Comparing(p: nat): seq<Step> { [Acquire(p)] + ([CompareFirst(p)] + Rechecking(p)) }

  /** The world once process `p` has made its change and is done. */
  function Changed(w: World, p: nat): World
    requires p in w.processes
  {
    w.(file := Some(w.processes[p].plan.encoded), applied := w.applied + [w.processes[p].edit], lock := None,
       processes := w.processes - {p})
  }

  lemma ReplacingChanges(repr: string -> string, w: World, p: nat)
    requires p in w.processes && w.processes[p].at == Ready
    ensures Run(repr, w, Replacing(p)) == Changed(w, p)
  {
    RunFirst(repr, w, Replace(p), [Release(p)] + []);
    var u := Apply(repr, w, Replace(p));
    RunFirst(repr, u, Release(p), []);
    assert u.processes - {p} == w.processes - {p};
  }

  lemma RecheckingChanges(repr: string -> string, w: World, p: nat)
    requires p in w.processes && w.processes[p].at == Compared && Unchanged(repr, w, w.processes[p].plan)
    ensures Run(repr, w, Rechecking(p)) == Changed(w, p)
  {
    RunFirst(repr, w, Stage(p), [CompareAgain(p)] + Replacing(p));
    var u := Apply(repr, w, Stage(p));
    assert u == Moved(w, p, Staged);
    RunFirst(repr, u, CompareAgain(p), Replacing(p));
    var v := Apply(repr, u, CompareAgain(p));
    assert v == Moved(u, p, Ready);
    ReplacingChanges(repr, v, p);
    assert v.processes - {p} == w.processes - {p};
  }

  lemma ComparingChanges(repr: string -> string, w: World, p: nat)
    requires p in w.processes && w.processes[p].at == Planned && Unchanged(repr, w, w.processes[p].plan)
    requires w.lock.None? && !w.processes[p].plan.action.Unchanged?
    ensures Run(repr, w, Comparing(p)) == Changed(w, p)
  {
    RunFirst(repr, w, Acquire(p), [CompareFirst(p)] + Rechecking(p));
    var u := Apply(repr, w, Acquire(p));
    assert u == Moved(w, p, Locked).(lock := Some(p));
    RunFirst(repr, u, CompareFirst(p), Rechecking(p));
    var v := Apply(repr, u, CompareFirst(p));
    assert v == Moved(u, p, Compared);
    RecheckingChanges(repr, v, p);
    assert v.processes - {p} == w.processes - {p};
  }

  /** Undisturbed, a planned change goes through and gives the lock back. */
  lemma UpdateCompletes(repr: string -> string, w: World, p: nat, edit: Edit)
    requires w.lock.None? && p !in w.processes
    requires PlanEdit(repr, w.file, edit).Ok? && !PlanEdit(repr, w.file, edit).value.action.Unchanged?
    ensures Run(repr, w, [MakePlan(p, edit)] + Comparing(p))
         == w.(file := Some(PlanEdit(repr, w.file, edit).value.encoded), applied := w.applied + [edit])
  {
    RunFirst(repr, w, MakePlan(p, edit), Comparing(p));
    var u := Apply(repr, w, MakePlan(p, edit));
    ComparingChanges(repr, u, p);
    assert u.processes - {p} == w.processes;
  }

  // ----- A number beyond every finite one

  /** An object with one member, a number. */
  function NumberText(key: Text, t: string): string
    requires AllScalar(key)
  {
    "{" + WriteKey(key, t + "}")
  }

  lemma NumberValueReads(repr: string -> string, t: string, rest: string)
    requires FloatText(t) && Closed(rest)
    ensures ReadValue(repr, t + rest) == Ok((Float(repr(t)), rest)) && Skip(t + rest) == t + rest
  {
    assert OpensNumber(t + rest);
    NotSkipped(t + rest);
    ReadsNumber(repr, t + rest);
    FloatReadsBack(repr, t, rest);
  }

  lemma NumberMemberReads(repr: string -> string, key: Text, t: string, rest: string)
    requires AllScalar(key) && FloatText(t) && Closed(rest) && Skip(rest) == "}" + ""
    ensures ReadMembers(repr, WriteKey(key, t + rest)) == Ok((Member(key, Float(repr(t)), NoMembers), ""))
  {
    NumberValueReads(repr, t, rest);
    KeyReadsBack(key, t + rest);
    ReadsLastMember(repr, WriteKey(key, t + rest), "");
  }

  lemma ObjectReads(repr: string -> string, s: string, m: Members)
    requires ReadMembers(repr, s) == Ok((m, "")) && Distinct(m) && Opens(s)
    ensures ReadText(repr, "{" + s) == Ok(Obj(m))
  {
    NotSkipped(s);
    ReadsBracket(repr, s);
    NotSkipped("{" + s);
    assert Skip("") == "";
  }

  lemma NumberTextReads(repr: string -> string, key: Text, t: string)
    requires AllScalar(key) && FloatText(t)
    ensures ReadText(repr, NumberText(key, t)) == Ok(Obj(Member(key, Float(repr(t)), NoMembers)))
  {
    assert Skip("}") == "}" + "";
    NumberMemberReads(repr, key, t, "}");
    ObjectReads(repr, WriteKey(key, t + "}"), Member(key, Float(repr(t)), NoMembers));
  }

  /** A number that Python reads as infinite is accepted, and after the first change
      the tool refuses the file that it wrote. */
  lemma InfiniteNumberIsFinal(repr: string -> string, key: Text, t: string, e: Edit, p: nat)
    requires Settles(repr) && AllScalar(key) && key != SERVERS && FloatText(t) && Infinite(repr(t))
    requires |Utf8.Utf8(NumberText(key, t))| <= MAX_CONFIG
    ensures var raw := Utf8.Utf8(NumberText(key, t));
            && Read(repr, Some(raw)) == Ok((raw, Member(key, Float(repr(t)), NoMembers)))
            && (PlanEdit(repr, Some(raw), e).Ok? && !e.remove ==>
                  Read(repr, Run(repr, Start(Some(raw)), [MakePlan(p, e)] + Comparing(p)).file) == Err(InvalidConfig))
  {
    var raw := Utf8.Utf8(NumberText(key, t));
    DecodeUtf8(NumberText(key, t));
    NumberTextReads(repr, key, t);
    var config := Member(key, Float(repr(t)), NoMembers);
    assert Lookup(config, SERVERS).None?;
    if PlanEdit(repr, Some(raw), e).Ok? && !e.remove {
      PlanReadsBack(repr, Some(raw), e);
      UpdateCompletes(repr, Start(Some(raw)), p, e);
    }
  }

  /** A reading of numbers under which 1e999 is too large. */
  function Overflowing(s: string): string { if s == "1e999" then "Infinity" else s }

  /** It is such a number. */
  lemma OverflowIsInfinite()
    ensures Settles(Overflowing) && FloatText("1e999") && Infinite(Overflowing("1e999"))
  {
    var t := "1e999";
    assert t[0..] == t && t[1..] == "e999" && t[2..] == "999";
    SpanOf("1", "e999", Digit);
    assert "1" + "e999" == t;
    SpanOf("999", "", Digit);
    assert "999" + "" == "999";
  }
}
