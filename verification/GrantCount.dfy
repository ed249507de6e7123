/** How many grants are requested, in every run whatever overlaps. */
module GrantCount {
  import opened Wrappers
  import opened GrantSetup
  import opened GrantSafety

  /** Recoveries that were told of their session's end and have removed no file yet. */
  function Entitled(custodians: map<nat, Process<Custody>>): set<nat> {
    set p | p in custodians && Past(custodians[p].at)
  }

  predicate Past(at: Custody) { at.Confirmed? || at.Cleared? || at.Matched? }

  /** Every intent file was removed or is at the path, every removal used up a
      confirmed recovery, and every request belongs to a file. */
  ghost predicate Counted(w: World) {
    && w.disk.made == w.disk.unlinked + (if w.disk.receipt.Some? then 1 else 0)
    && w.disk.unlinked + |Entitled(w.custodians)| <= w.server.recoveries
    && (forall g | g in w.server.grants :: 0 <= g < w.disk.made)
    && (forall p | p in w.installs && Attempt(w.installs[p].at).Some? :: Attempt(w.installs[p].at).value < w.disk.made)
  }

  /** An install touches no count but those of files, and creates one only where
      none is. */
  lemma InstallTally(w: World, a: Action)
    requires OfInstall(a) && a.pid in w.installs
    ensures var v := InstallStep(w, a);
            && v.custodians == w.custodians && v.server.recoveries == w.server.recoveries
            && v.disk.unlinked == w.disk.unlinked
            && (|| (v.disk.made == w.disk.made && v.disk.receipt == w.disk.receipt)
                || (v.disk.made == w.disk.made + 1 && w.disk.receipt.None? && v.disk.receipt.Some?))
  {
  }

  /** Its attempt is its own or the new file, and so is the grant it asks for. */
  lemma InstallAttempts(w: World, a: Action)
    requires OfInstall(a) && a.pid in w.installs
    ensures var v, p := InstallStep(w, a), a.pid;
            && (forall g | g in v.server.grants :: g in w.server.grants || Some(g) == Attempt(w.installs[p].at))
            && (forall q | q in v.installs && q != p :: q in w.installs && v.installs[q] == w.installs[q])
            && (p in v.installs ==>
                  || Attempt(v.installs[p].at) in {None, Attempt(w.installs[p].at)}
                  || (Attempt(v.installs[p].at) == Some(w.disk.made) && v.disk.made == w.disk.made + 1))
  {
  }

  lemma InstallCounts(w: World, a: Action)
    requires Counted(w) && OfInstall(a) && a.pid in w.installs
    ensures Counted(InstallStep(w, a))
  {
    InstallTally(w, a);
    InstallAttempts(w, a);
  }

  lemma NoneEntitled(custodians: map<nat, Process<Custody>>, p: nat, at: Custody)
    requires p in custodians && !Past(custodians[p].at)
    ensures Entitled(custodians[p := custodians[p].(at := at)])
         == if Past(at) then Entitled(custodians) + {p} else Entitled(custodians)
    ensures p !in Entitled(custodians)
  {
  }

  lemma StillEntitled(custodians: map<nat, Process<Custody>>, p: nat, at: Custody)
    requires p in custodians && Past(custodians[p].at) && Past(at)
    ensures Entitled(custodians[p := custodians[p].(at := at)]) == Entitled(custodians)
  {
  }

  lemma EndedEntitled(custodians: map<nat, Process<Custody>>, p: nat)
    ensures Entitled(custodians - {p}) == Entitled(custodians) - {p}
  {
  }

  /** A custodian moves or ends; no other changes. */
  lemma OneMoves(w: World, a: Action)
    requires OfCustodian(a) && a.pid in w.custodians
    ensures var p, c, d := a.pid, w.custodians, CustodyStep(w, a).custodians;
            d == if p in d then c[p := c[p].(at := d[p].at)] else c - {p}
  {
  }

  /** What a custodian's step does to the counts: only a confirmation entitles,
      and only an entitled one removes a file. */
  lemma Tally(w: World, a: Action)
    requires OfCustodian(a) && a.pid in w.custodians
    ensures var p, v := a.pid, CustodyStep(w, a);
            var past := Past(w.custodians[p].at);
            && v.installs == w.installs && v.disk.made == w.disk.made && v.server.grants.Keys == w.server.grants.Keys
            && (if p in v.custodians then
                  && v.disk.receipt == w.disk.receipt && v.disk.unlinked == w.disk.unlinked
                  && (past ==> Past(v.custodians[p].at))
                  && v.server.recoveries == w.server.recoveries + if !past && Past(v.custodians[p].at) then 1 else 0
                else
                  && v.server.recoveries == w.server.recoveries
                  && (|| (v.disk.receipt == w.disk.receipt && v.disk.unlinked == w.disk.unlinked)
                      || (past && w.disk.receipt.Some? && v.disk.receipt.None? && v.disk.unlinked == w.disk.unlinked + 1)))
  {
  }

  lemma CustodianCounts(w: World, a: Action)
    requires Counted(w) && OfCustodian(a) && a.pid in w.custodians
    ensures Counted(CustodyStep(w, a))
  {
    var p, c, v := a.pid, w.custodians, CustodyStep(w, a);
    OneMoves(w, a);
    Tally(w, a);
    EndedEntitled(c, p);
    if p in v.custodians && Past(c[p].at) {
      StillEntitled(c, p, v.custodians[p].at);
    } else if p in v.custodians {
      NoneEntitled(c, p, v.custodians[p].at);
    }
  }

  lemma StepCounts(w: World, a: Action)
    requires Counted(w)
    ensures Counted(Step(w, a))
  {
    if OfInstall(a) || OfCustodian(a) {
      ProcessSteps(w, a);
      if OfInstall(a) && a.pid in w.installs {
        InstallCounts(w, a);
      } else if OfCustodian(a) && a.pid in w.custodians {
        CustodianCounts(w, a);
      }
    } else if a.CrashCustodian? {
      EndedEntitled(w.custodians, a.pid);
    } else {
      assert Entitled(Step(w, a).custodians) == Entitled(w.custodians);
    }
  }

  lemma {:induction false} RunCounts(w: World, actions: seq<Action>)
    requires Counted(w)
    ensures Counted(Run(w, actions))
    decreases |actions|
  {
    if actions != [] {
      StepCounts(w, actions[0]);
      RunCounts(Step(w, actions[0]), actions[1..]);
    }
  }

  lemma BoundedSize(keys: set<int>, n: nat)
    requires forall k | k in keys :: 0 <= k < n
    ensures |keys| <= n
  {
    if n == 0 {
      assert forall k :: k !in keys;
    } else {
      BoundedSize(keys - {n - 1}, n - 1);
      assert keys <= (keys - {n - 1}) + {n - 1};
    }
  }

  /** In every run, with any overlap, crash and lost reply: at most one grant is
      requested, and one more for each confirmed recovery. */
  lemma IssuanceIsBounded(actions: seq<Action>)
    ensures var w := Run(START, actions);
            |w.server.grants| <= 1 + w.server.recoveries
  {
    assert Entitled(START.custodians) == {};
    RunCounts(START, actions);
    var w := Run(START, actions);
    BoundedSize(w.server.grants.Keys, w.disk.made);
  }
}
