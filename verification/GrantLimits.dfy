/** Two limits of the grant setup protocol: recoveries that overlap can lose an
    intent, and a crash before the first write leaves one that no recovery can clear. */
module GrantLimits {
  import opened Wrappers
  import opened GrantSetup
  import opened GrantSafety
  import opened GrantProgress

  // ----- Two recoveries at once

  /** Recoveries `p` and `q` have both found the file at the path to be the one
      they read, and install `r` is about to create its own. */
  predicate BothMatched(w: World, p: nat, q: nat, r: nat) {
    && p != q && p in w.custodians && q in w.custodians && r in w.installs
    && w.custodians[p].at.Matched? && w.custodians[q].at.Matched? && w.disk.receipt.Some?
    && w.installs[r].at.NoIntent? && w.installs[r].owner !in w.server.deleted
  }

  function Overlap(p: nat, q: nat, owner: Session): seq<Action> {
    (Reading(p, owner) + Reading(q, owner)) + (Clearing(p) + Clearing(q))
  }

  /** Wherever an intent is at the path and another install waits to create its
      own, two overlapping recoveries by its user reach that point. */
  lemma OverlapReachesBothMatched(w: World, p: nat, q: nat, r: nat, owner: Session)
    requires p != q && p !in w.custodians && q !in w.custodians && w.disk.entry.None? && IntentAtPath(w.disk).Some?
    requires SameUser(IntentAtPath(w.disk).value.creator, owner)
    requires r in w.installs && w.installs[r].at.NoIntent?
    requires w.installs[r].owner !in w.server.deleted + {IntentAtPath(w.disk).value.creator}
    ensures BothMatched(Run(w, Overlap(p, q, owner)), p, q, r)
    ensures Run(w, Overlap(p, q, owner)).disk.made == w.disk.made
  {
    RunAppend(w, Reading(p, owner) + Reading(q, owner), Clearing(p) + Clearing(q));
    RunAppend(w, Reading(p, owner), Reading(q, owner));
    RecoveryReads(w, p, owner);
    var w1 := Run(w, Reading(p, owner));
    RecoveryReads(w1, q, owner);
    var w2 := Run(w1, Reading(q, owner));
    RunAppend(w2, Clearing(p), Clearing(q));
    RecoveryMatches(w2, p);
    RecoveryMatches(Run(w2, Clearing(p)), q);
  }

  /** `q` removes the file, and `r` records its intent and asks for its grant. */
  function Replacing(q: nat, r: nat): seq<Action> {
    [Unlink(q), CreateIntent(r)] + [WriteIntent(r), RequestGrant(r)]
  }

  lemma FileIsReplaced(w: World, p: nat, q: nat, r: nat)
    requires BothMatched(w, p, q, r)
    ensures var v, k := Run(w, [Unlink(q), CreateIntent(r)]), w.disk.made;
            && v.disk.receipt == Some(k) && v.server == w.server
            && p in v.custodians && v.custodians[p].at.Matched?
            && r in v.installs && v.installs[r] == Process(w.installs[r].owner, Created(k))
  {
    RunTwo(w, Unlink(q), CreateIntent(r));
    ProcessSteps(w, Unlink(q));
    ProcessSteps(Step(w, Unlink(q)), CreateIntent(r));
  }

  lemma IntentIsReplaced(w: World, p: nat, q: nat, r: nat)
    requires BothMatched(w, p, q, r)
    ensures var v, k := Run(w, Replacing(q, r)), w.disk.made;
            && p in v.custodians && v.custodians[p].at.Matched? && v.disk.receipt == Some(k)
            && k in v.server.grants && v.server.grants[k].state == Pending
  {
    RunAppend(w, [Unlink(q), CreateIntent(r)], [WriteIntent(r), RequestGrant(r)]);
    FileIsReplaced(w, p, q, r);
    GrantIsRequested(Run(w, [Unlink(q), CreateIntent(r)]), r, w.disk.made);
  }

  lemma GrantIsLost(w: World, p: nat, k: nat)
    requires p in w.custodians && w.custodians[p].at.Matched? && w.disk.receipt == Some(k)
    requires k in w.server.grants && w.server.grants[k].state == Pending
    ensures var v := Run(w, [Land(k), Unlink(p)]);
            v.disk.receipt.None? && PossiblyActive(v.server, k) && !Covered(v)
  {
    RunTwo(w, Land(k), Unlink(p));
    ProcessSteps(Step(w, Land(k)), Unlink(p));
  }

  /** If the grant of `r` lands and `p` then goes on, it removes the intent of
      `r`: the grant is active and nothing covers it. */
  lemma OverlappingRecoveriesLoseAnIntent(w: World, p: nat, q: nat, r: nat)
    requires BothMatched(w, p, q, r)
    ensures var v := Run(w, Replacing(q, r) + [Land(w.disk.made), Unlink(p)]);
            v.disk.receipt.None? && PossiblyActive(v.server, w.disk.made) && !Covered(v)
  {
    RunAppend(w, Replacing(q, r), [Land(w.disk.made), Unlink(p)]);
    IntentIsReplaced(w, p, q, r);
    GrantIsLost(Run(w, Replacing(q, r)), p, w.disk.made);
  }

  // ----- Such a run from the start

  const FIRST := Session(0, 0, 0)
  const SECOND := Session(0, 0, 1)

  /** Two logins of one user begin to install, and the first records its intent. */
  const PROLOGUE: seq<Action> :=
    [StartInstall(0, FIRST), SeeNoEntry(0)] + [StartInstall(1, SECOND), SeeNoEntry(1)]
    + ([SeeNoIntent(1)] + [SeeNoIntent(0), CreateIntent(0)] + [WriteIntent(0)])

  lemma BothBegin()
    ensures Run(START, [StartInstall(0, FIRST), SeeNoEntry(0)] + [StartInstall(1, SECOND), SeeNoEntry(1)])
         == START.(installs := map[0 := Process(FIRST, NoEntry), 1 := Process(SECOND, NoEntry)])
  {
    RunAppend(START, [StartInstall(0, FIRST), SeeNoEntry(0)], [StartInstall(1, SECOND), SeeNoEntry(1)]);
    InstallBegins(START, 0, FIRST);
    InstallBegins(START.(installs := map[0 := Process(FIRST, NoEntry)]), 1, SECOND);
  }

  lemma OneRecords(w: World)
    requires w == START.(installs := map[0 := Process(FIRST, NoEntry), 1 := Process(SECOND, NoEntry)])
    ensures var v := Run(w, [SeeNoIntent(1)] + [SeeNoIntent(0), CreateIntent(0)] + [WriteIntent(0)]);
            && v.disk.entry.None? && v.disk.made == 1 && IntentAtPath(v.disk) == Some(Intent(FIRST, 0, None))
            && 1 in v.installs && v.installs[1] == Process(SECOND, NoIntent)
            && v.custodians == map[] && v.server == START.server
  {
    RunThree(w, [SeeNoIntent(1)], [SeeNoIntent(0), CreateIntent(0)], [WriteIntent(0)]);
    RunOne(w, SeeNoIntent(1));
    ProcessSteps(w, SeeNoIntent(1));
    var u := Step(w, SeeNoIntent(1));
    FileIsCreated(u, 0);
    var x := Run(u, [SeeNoIntent(0), CreateIntent(0)]);
    RunOne(x, WriteIntent(0));
    ProcessSteps(x, WriteIntent(0));
  }

  /** From the start: two installs, two recoveries by the same user that overlap,
      and in the end an active grant that no intent covers. */
  lemma IntentCanBeLost()
    ensures !Covered(Run(START, PROLOGUE + Overlap(0, 1, FIRST) + (Replacing(1, 1) + [Land(1), Unlink(0)])))
  {
    var last := Replacing(1, 1) + [Land(1), Unlink(0)];
    RunThree(START, PROLOGUE, Overlap(0, 1, FIRST), last);
    RunAppend(START, [StartInstall(0, FIRST), SeeNoEntry(0)] + [StartInstall(1, SECOND), SeeNoEntry(1)],
              [SeeNoIntent(1)] + [SeeNoIntent(0), CreateIntent(0)] + [WriteIntent(0)]);
    BothBegin();
    OneRecords(START.(installs := map[0 := Process(FIRST, NoEntry), 1 := Process(SECOND, NoEntry)]));
    var w := Run(START, PROLOGUE);
    OverlapReachesBothMatched(w, 0, 1, 1, FIRST);
    OverlappingRecoveriesLoseAnIntent(Run(w, Overlap(0, 1, FIRST)), 0, 1, 1);
  }

  // ----- An intent file that stayed empty

  /** The install that created the file at the path is gone. */
  ghost predicate Deserted(w: World) {
    && w.disk.receipt.Some? && w.disk.receipt.value in w.disk.files
    && forall p | p in w.installs :: w.installs[p].at != Created(w.disk.receipt.value)
  }

  ghost predicate EmptyIntent(w: World) {
    Deserted(w) && w.disk.files[w.disk.receipt.value].None?
  }

  /** A crash right after the exclusive creation leaves such a file. */
  lemma CrashLeavesEmptyIntent(p: nat, owner: Session)
    ensures var actions := ([StartInstall(p, owner), SeeNoEntry(p)] + [SeeNoIntent(p), CreateIntent(p)]) + [CrashInstall(p)];
            EmptyIntent(Run(START, actions))
  {
    RunAppend(START, [StartInstall(p, owner), SeeNoEntry(p)] + [SeeNoIntent(p), CreateIntent(p)], [CrashInstall(p)]);
    CreatingMakes(START, p, owner);
    RunOne(Made(START, p, owner), CrashInstall(p));
  }

  /** No install still writes to it. */
  ghost predicate Unclaimed(w: World) {
    forall p | p in w.installs && w.installs[p].at.Issued? :: w.disk.receipt != Some(w.installs[p].at.k)
  }

  lemma EmptyIsUnclaimed(w: World)
    requires Inv(w) && EmptyIntent(w)
    ensures Unclaimed(w)
    ensures forall p | p in w.custodians && w.custodians[p].at.Matched? ::
              w.disk.receipt != Some(w.custodians[p].at.file)
  {
    forall p | p in w.installs && w.installs[p].at.Issued? ensures w.disk.receipt != Some(w.installs[p].at.k) {
      assert InstallOk(w.disk, w.server, w.installs[p]);
    }
    forall p | p in w.custodians && w.custodians[p].at.Matched?
      ensures w.disk.receipt != Some(w.custodians[p].at.file)
    {
      assert CustodyOk(w.disk, w.server, w.custodians[p].at);
    }
  }

  /** An install that finds a file at the path leaves it there, and writes only to
      its own. */
  lemma InstallKeepsFile(w: World, a: Action)
    requires w.disk.receipt.Some? && OfInstall(a) && a.pid in w.installs
    ensures var v, at := InstallStep(w, a), w.installs[a.pid].at;
            && v.disk.receipt == w.disk.receipt
            && (forall k | k in w.disk.files && !(at.Created? && at.k == k) && !(at.Issued? && at.k == k) ::
                  k in v.disk.files && v.disk.files[k] == w.disk.files[k])
  {
  }

  lemma InstallKeepsAway(w: World, a: Action)
    requires w.disk.receipt.Some? && OfInstall(a) && a.pid in w.installs
    requires forall p | p in w.installs :: w.installs[p].at != Created(w.disk.receipt.value)
    ensures forall p | p in InstallStep(w, a).installs :: InstallStep(w, a).installs[p].at != Created(w.disk.receipt.value)
  {
  }

  lemma InstallKeepsEmpty(w: World, a: Action)
    requires EmptyIntent(w) && Unclaimed(w) && OfInstall(a) && a.pid in w.installs
    ensures EmptyIntent(InstallStep(w, a)) && InstallStep(w, a).disk.receipt == w.disk.receipt
  {
    InstallKeepsFile(w, a);
    InstallKeepsAway(w, a);
  }

  lemma CustodianKeepsEmpty(w: World, a: Action)
    requires EmptyIntent(w) && OfCustodian(a) && a.pid in w.custodians
    requires a.Unlink? ==> !w.custodians[a.pid].at.Matched?
    ensures EmptyIntent(CustodyStep(w, a)) && CustodyStep(w, a).disk.receipt == w.disk.receipt
  {
  }

  lemma StepKeepsEmpty(w: World, a: Action)
    requires Inv(w) && EmptyIntent(w) && Guarded(w, a)
    ensures EmptyIntent(Step(w, a)) && Step(w, a).disk.receipt == w.disk.receipt
  {
    EmptyIsUnclaimed(w);
    if OfInstall(a) || OfCustodian(a) {
      ProcessSteps(w, a);
      if OfInstall(a) && a.pid in w.installs {
        InstallKeepsEmpty(w, a);
      } else if OfCustodian(a) && a.pid in w.custodians {
        CustodianKeepsEmpty(w, a);
      }
    }
  }

  lemma EmptyIntentCoversNone(w: World)
    requires Inv(w) && EmptyIntent(w)
    ensures forall g :: !PossiblyActive(w.server, g)
  {
    forall g ensures !PossiblyActive(w.server, g) {
      if g in w.server.grants {
        assert g in w.disk.creators;
      }
    }
  }

  lemma {:induction false} GuardedRunKeepsEmpty(w: World, actions: seq<Action>)
    requires Inv(w) && EmptyIntent(w) && GuardedRun(w, actions)
    ensures var v := Run(w, actions);
            Inv(v) && EmptyIntent(v) && v.disk.receipt == w.disk.receipt
    decreases |actions|
  {
    if actions != [] {
      StepKeepsEmpty(w, actions[0]);
      StepKeeps(w, actions[0]);
      GuardedRunKeepsEmpty(Step(w, actions[0]), actions[1..]);
    }
  }

  /** No recovery has compared a file that it is still to remove. */
  ghost predicate NoneMatched(w: World) {
    forall p | p in w.custodians :: !w.custodians[p].at.Matched?
  }

  /** An empty file is never the one that a recovery read. */
  lemma CustodianStaysUnmatched(w: World, a: Action)
    requires Inv(w) && EmptyIntent(w) && NoneMatched(w) && OfCustodian(a) && a.pid in w.custodians
    ensures NoneMatched(CustodyStep(w, a))
  {
    assert CustodyOk(w.disk, w.server, w.custodians[a.pid].at);
  }

  lemma InstallKeepsCustodians(w: World, a: Action)
    requires OfInstall(a) && a.pid in w.installs
    ensures InstallStep(w, a).custodians == w.custodians
  {
  }

  lemma ProcessStaysUnmatched(w: World, a: Action)
    requires Inv(w) && EmptyIntent(w) && NoneMatched(w) && (OfInstall(a) || OfCustodian(a))
    ensures NoneMatched(Step(w, a))
  {
    ProcessSteps(w, a);
    if OfInstall(a) && a.pid in w.installs {
      InstallKeepsCustodians(w, a);
    } else if OfCustodian(a) && a.pid in w.custodians {
      CustodianStaysUnmatched(w, a);
    }
  }

  lemma OtherStaysUnmatched(w: World, a: Action)
    requires NoneMatched(w) && !OfInstall(a) && !OfCustodian(a)
    ensures NoneMatched(Step(w, a))
  {
  }

  lemma StepStaysUnmatched(w: World, a: Action)
    requires Inv(w) && EmptyIntent(w) && NoneMatched(w)
    ensures NoneMatched(Step(w, a))
  {
    if OfInstall(a) || OfCustodian(a) {
      ProcessStaysUnmatched(w, a);
    } else {
      OtherStaysUnmatched(w, a);
    }
  }

  lemma {:induction false} UnmatchedIsGuarded(w: World, actions: seq<Action>)
    requires Inv(w) && EmptyIntent(w) && NoneMatched(w)
    ensures GuardedRun(w, actions)
    decreases |actions|
  {
    if actions != [] {
      assert Guarded(w, actions[0]);
      StepKeepsEmpty(w, actions[0]);
      StepKeeps(w, actions[0]);
      StepStaysUnmatched(w, actions[0]);
      UnmatchedIsGuarded(Step(w, actions[0]), actions[1..]);
    }
  }

  /** From then on the file stays at the path, whatever installs, recoveries and
      disconnects are run, and no grant is or becomes active: in every guarded run,
      and in every run at all unless a recovery is about to remove a file that it
      compared before. */
  lemma EmptyIntentIsFinal(w: World, actions: seq<Action>)
    requires Inv(w) && EmptyIntent(w) && (GuardedRun(w, actions) || NoneMatched(w))
    ensures var v := Run(w, actions);
            Inv(v) && EmptyIntent(v) && v.disk.receipt == w.disk.receipt && forall g :: !PossiblyActive(v.server, g)
  {
    if NoneMatched(w) { UnmatchedIsGuarded(w, actions); }
    GuardedRunKeepsEmpty(w, actions);
    EmptyIntentCoversNone(Run(w, actions));
  }

  // ----- Exactly when the path can be cleared

  ghost predicate Clears(w: World, actions: seq<Action>) {
    GuardedRun(w, actions) && Run(w, actions).disk.receipt.None?
  }

  lemma {:induction false} GuardedAppend(w: World, a: seq<Action>, b: seq<Action>)
    requires GuardedRun(w, a) && GuardedRun(Run(w, a), b)
    ensures GuardedRun(w, a + b)
    decreases |a|
  {
    if a == [] {
      assert a + b == b;
    } else {
      assert (a + b)[1..] == a[1..] + b;
      GuardedAppend(Step(w, a[0]), a[1..], b);
    }
  }

  lemma {:induction false} GuardedWithoutUnlink(w: World, actions: seq<Action>)
    requires forall i | 0 <= i < |actions| :: !actions[i].Unlink?
    ensures GuardedRun(w, actions)
    decreases |actions|
  {
    if actions != [] {
      GuardedWithoutUnlink(Step(w, actions[0]), actions[1..]);
    }
  }

  lemma RecoveryIsGuarded(w: World, p: nat, owner: Session)
    requires p !in w.custodians && w.disk.entry.None? && IntentAtPath(w.disk).Some?
    requires SameUser(IntentAtPath(w.disk).value.creator, owner)
    ensures GuardedRun(w, Recovery(p, owner))
  {
    var early := Reading(p, owner) + Clearing(p);
    GuardedWithoutUnlink(w, early);
    RunAppend(w, Reading(p, owner), Clearing(p));
    RecoveryReads(w, p, owner);
    RecoveryMatches(Run(w, Reading(p, owner)), p);
    assert GuardedRun(Run(w, early), [Unlink(p)]);
    GuardedAppend(w, early, [Unlink(p)]);
    assert Recovery(p, owner) == early + [Unlink(p)];
  }

  ghost predicate Empties(w: World, actions: seq<Action>) { Run(w, actions).disk.receipt.None? }

  /** From any reachable state with no entry and the creating install gone: some
      guarded run clears the path if and only if the intent was written, and then
      one recovery by its creator's user does it. */
  lemma ClearableIfWritten(w: World, p: nat)
    requires Inv(w) && Deserted(w) && w.disk.entry.None? && p !in w.custodians
    ensures (exists actions :: Clears(w, actions)) <==> IntentAtPath(w.disk).Some?
    ensures IntentAtPath(w.disk).Some? ==> Clears(w, Recovery(p, IntentAtPath(w.disk).value.creator))
  {
    if IntentAtPath(w.disk).Some? {
      var owner := IntentAtPath(w.disk).value.creator;
      RecoveryIsGuarded(w, p, owner);
      RecoveryCompletes(w, p, owner);
      assert Clears(w, Recovery(p, owner));
    } else {
      forall actions ensures !Clears(w, actions) {
        if GuardedRun(w, actions) {
          EmptyIntentIsFinal(w, actions);
        }
      }
    }
  }

  lemma MatchedEmpties(w: World, q: nat)
    requires q in w.custodians && w.custodians[q].at.Matched?
    ensures Empties(w, [Unlink(q)])
  {
    RunOne(w, Unlink(q));
    ProcessSteps(w, Unlink(q));
  }

  /** Among all runs, guarded or not, some run clears the path if and only if the
      intent was written or a recovery is about to remove a file that it compared
      before. */
  lemma EmptiedIfWrittenOrMatched(w: World, p: nat)
    requires Inv(w) && Deserted(w) && w.disk.entry.None? && p !in w.custodians
    ensures (exists actions :: Empties(w, actions)) <==> IntentAtPath(w.disk).Some? || !NoneMatched(w)
  {
    if IntentAtPath(w.disk).Some? {
      ClearableIfWritten(w, p);
      assert Empties(w, Recovery(p, IntentAtPath(w.disk).value.creator));
    } else if NoneMatched(w) {
      forall actions ensures !Empties(w, actions) {
        EmptyIntentIsFinal(w, actions);
      }
    } else {
      var q :| q in w.custodians && w.custodians[q].at.Matched?;
      MatchedEmpties(w, q);
    }
  }
}
