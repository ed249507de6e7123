/** Exactly which removals of an intent file are safe for good: what happens after
    the file at the path is removed without having been compared. */
module GrantCover {
  import opened Wrappers
  import opened GrantSetup
  import opened GrantSafety
  import GrantProgress

  // ----- What every step keeps, guarded or not

  ghost predicate SoundStores(d: Disk, s: Server) {
    && DiskInv(d)
    && forall g | g in s.grants ::
         && 0 <= g < d.made && d.files[g].Some? && s.grants[g].creator == d.creators[g]
         && (s.grants[g].creator in s.deleted ==> s.grants[g].state.Dead?)
  }

  predicate SoundInstall(d: Disk, p: Process<Install>) {
    Attempt(p.at).Some? && !p.at.RevokedOwn? ==>
      Recording(d, p.owner, p.at.k) && (p.at.Created? || d.files[p.at.k].Some?)
  }

  predicate SoundCustody(d: Disk, s: Server, at: Custody) {
    match at
    case Opened(file, intent) => Written(d, file) && intent.creator == d.creators[file]
    case Confirmed(file, _) => file in d.creators && d.creators[file] in s.deleted
    case Cleared(file) => file in d.creators && d.creators[file] in s.deleted
    case Matched(file) => file in d.creators && d.creators[file] in s.deleted
    case _ => true
  }

  ghost predicate Sound(w: World) {
    && SoundStores(w.disk, w.server)
    && (forall p | p in w.installs :: SoundInstall(w.disk, w.installs[p]))
    && (forall p | p in w.custodians :: SoundCustody(w.disk, w.server, w.custodians[p].at))
  }

  /** The stores change, and nothing is taken away from any process. */
  ghost predicate Extends(d: Disk, s: Server, e: Disk, t: Server) {
    && (forall k | k in d.creators :: k in e.creators && e.creators[k] == d.creators[k])
    && (forall k | k in d.files :: k in e.files && (d.files[k].Some? ==> e.files[k].Some?))
    && s.deleted <= t.deleted
  }

  lemma InstallsExtend(w: World, v: World, p: nat)
    requires Sound(w) && Extends(w.disk, w.server, v.disk, v.server)
    requires forall q | q in v.installs && q != p :: q in w.installs && v.installs[q] == w.installs[q]
    requires p in v.installs ==> SoundInstall(v.disk, v.installs[p])
    ensures forall q | q in v.installs :: SoundInstall(v.disk, v.installs[q])
  {
    forall q | q in v.installs ensures SoundInstall(v.disk, v.installs[q]) {
      if q != p { assert SoundInstall(w.disk, w.installs[q]); }
    }
  }

  lemma CustodiansExtend(w: World, v: World, p: nat)
    requires Sound(w) && Extends(w.disk, w.server, v.disk, v.server)
    requires forall q | q in v.custodians && q != p :: q in w.custodians && v.custodians[q] == w.custodians[q]
    requires p in v.custodians ==> SoundCustody(v.disk, v.server, v.custodians[p].at)
    ensures forall q | q in v.custodians :: SoundCustody(v.disk, v.server, v.custodians[q].at)
  {
    forall q | q in v.custodians ensures SoundCustody(v.disk, v.server, v.custodians[q].at) {
      if q != p { assert SoundCustody(w.disk, w.server, w.custodians[q].at); }
    }
  }

  /** One install and the stores move on. */
  lemma InstallMovesSoundly(w: World, v: World, p: nat)
    requires Sound(w) && SoundStores(v.disk, v.server) && Extends(w.disk, w.server, v.disk, v.server)
    requires forall q | q in v.installs && q != p :: q in w.installs && v.installs[q] == w.installs[q]
    requires (p in v.installs ==> SoundInstall(v.disk, v.installs[p])) && v.custodians == w.custodians
    ensures Sound(v)
  {
    InstallsExtend(w, v, p);
    forall q | q in v.custodians ensures SoundCustody(v.disk, v.server, v.custodians[q].at) {
      assert SoundCustody(w.disk, w.server, w.custodians[q].at);
    }
  }

  /** One custodian and the stores move on. */
  lemma CustodianMovesSoundly(w: World, v: World, p: nat)
    requires Sound(w) && SoundStores(v.disk, v.server) && Extends(w.disk, w.server, v.disk, v.server)
    requires forall q | q in v.custodians && q != p :: q in w.custodians && v.custodians[q] == w.custodians[q]
    requires (p in v.custodians ==> SoundCustody(v.disk, v.server, v.custodians[p].at)) && v.installs == w.installs
    ensures Sound(v)
  {
    CustodiansExtend(w, v, p);
    forall q | q in v.installs ensures SoundInstall(v.disk, v.installs[q]) {
      assert SoundInstall(w.disk, w.installs[q]);
    }
  }

  lemma InstallChecksSound(w: World, p: nat)
    requires Sound(w) && p in w.installs
    ensures Sound(SawNoEntry(w, p)) && Sound(SawNoIntent(w, p)) && Sound(ReceivedGrant(w, p)) && Sound(Raised(w, p))
  {
    assert SoundInstall(w.disk, w.installs[p]);
  }

  lemma CreationSound(w: World, p: nat)
    requires Sound(w) && p in w.installs
    ensures Sound(CreatedIntent(w, p))
  {
    var v := CreatedIntent(w, p);
    assert SoundStores(v.disk, v.server);
    InstallMovesSoundly(w, v, p);
  }

  lemma FirstWriteSound(w: World, p: nat)
    requires Sound(w) && p in w.installs
    ensures Sound(WroteIntent(w, p))
  {
    assert SoundInstall(w.disk, w.installs[p]);
    assert SoundStores(WroteIntent(w, p).disk, w.server);
    InstallMovesSoundly(w, WroteIntent(w, p), p);
  }

  lemma NoteSound(w: World, p: nat)
    requires Sound(w) && p in w.installs
    ensures Sound(NotedGrant(w, p))
  {
    assert SoundInstall(w.disk, w.installs[p]);
    assert SoundStores(NotedGrant(w, p).disk, w.server);
    InstallMovesSoundly(w, NotedGrant(w, p), p);
  }

  lemma RequestSound(w: World, p: nat)
    requires Sound(w) && p in w.installs
    ensures Sound(RequestedGrant(w, p))
  {
    assert SoundInstall(w.disk, w.installs[p]);
    InstallMovesSoundly(w, RequestedGrant(w, p), p);
  }

  lemma SecretStorageSound(w: World, p: nat, raised: bool)
    requires Sound(w) && p in w.installs
    ensures Sound(StoredSecret(w, p, raised))
  {
    assert SoundInstall(w.disk, w.installs[p]);
    InstallMovesSoundly(w, StoredSecret(w, p, raised), p);
  }

  lemma EntryInstallationSound(w: World, p: nat, raised: bool)
    requires Sound(w) && p in w.installs
    ensures Sound(InstalledEntry(w, p, raised))
  {
    assert SoundInstall(w.disk, w.installs[p]);
    InstallMovesSoundly(w, InstalledEntry(w, p, raised), p);
  }

  lemma OwnSecretDropSound(w: World, p: nat)
    requires Sound(w) && p in w.installs
    ensures Sound(OwnSecretDropped(w, p))
  {
    assert SoundInstall(w.disk, w.installs[p]);
    InstallMovesSoundly(w, OwnSecretDropped(w, p), p);
  }

  lemma OwnRevocationSound(w: World, p: nat, reply: Reply)
    requires Sound(w) && p in w.installs
    ensures Sound(OwnRevoked(w, p, reply))
  {
    assert SoundInstall(w.disk, w.installs[p]);
    InstallMovesSoundly(w, OwnRevoked(w, p, reply), p);
  }

  lemma InstallStepSound(w: World, a: Action)
    requires Sound(w) && OfInstall(a) && a.pid in w.installs
    ensures Sound(InstallStep(w, a))
  {
    match a
    case CreateIntent(p) => CreationSound(w, p);
    case WriteIntent(p) => FirstWriteSound(w, p);
    case NoteGrant(p) => NoteSound(w, p);
    case RequestGrant(p) => RequestSound(w, p);
    case PutSecret(p, raised) => SecretStorageSound(w, p, raised);
    case InstallEntry(p, raised) => EntryInstallationSound(w, p, raised);
    case DropOwnSecret(p) => OwnSecretDropSound(w, p);
    case RevokeOwn(p, reply) => OwnRevocationSound(w, p, reply);
    case SeeNoEntry(p) => InstallChecksSound(w, p);
    case SeeNoIntent(p) => InstallChecksSound(w, p);
    case ReceiveGrant(p) => InstallChecksSound(w, p);
    case Raise(p) => InstallChecksSound(w, p);
  }

  lemma RevocationSound(w: World, p: nat, reply: Reply)
    requires Sound(w) && p in w.custodians
    ensures Sound(GrantRevoked(w, p, reply))
  {
    CustodianMovesSoundly(w, GrantRevoked(w, p, reply), p);
  }

  lemma DeletionSound(w: World, p: nat, reply: Reply)
    requires Sound(w) && p in w.custodians
    ensures Sound(CreatorDeleted(w, p, reply))
  {
    assert SoundCustody(w.disk, w.server, w.custodians[p].at);
    CustodianMovesSoundly(w, CreatorDeleted(w, p, reply), p);
  }

  lemma CustodyChecksSound(w: World, p: nat)
    requires Sound(w) && p in w.custodians
    ensures Sound(IntentRead(w, p)) && Sound(SawNotInstalled(w, p)) && Sound(IntentOpened(w, p)) && Sound(FileMatched(w, p))
  {
    assert SoundCustody(w.disk, w.server, w.custodians[p].at);
  }

  lemma EntryRemovalSound(w: World, p: nat, raised: bool)
    requires Sound(w) && p in w.custodians
    ensures Sound(EntryRemoved(w, p, raised))
  {
    assert SoundCustody(w.disk, w.server, w.custodians[p].at);
    CustodianMovesSoundly(w, EntryRemoved(w, p, raised), p);
  }

  lemma SecretDropSound(w: World, p: nat)
    requires Sound(w) && p in w.custodians
    ensures Sound(SecretDropped(w, p))
  {
    assert SoundCustody(w.disk, w.server, w.custodians[p].at);
    CustodianMovesSoundly(w, SecretDropped(w, p), p);
  }

  lemma IntentSecretDropSound(w: World, p: nat)
    requires Sound(w) && p in w.custodians
    ensures Sound(IntentSecretDropped(w, p))
  {
    assert SoundCustody(w.disk, w.server, w.custodians[p].at);
    CustodianMovesSoundly(w, IntentSecretDropped(w, p), p);
  }

  lemma RemovalSound(w: World, p: nat)
    requires Sound(w) && p in w.custodians
    ensures Sound(Unlinked(w, p))
  {
    CustodianMovesSoundly(w, Unlinked(w, p), p);
  }

  lemma CustodyStepSound(w: World, a: Action)
    requires Sound(w) && OfCustodian(a) && a.pid in w.custodians
    ensures Sound(CustodyStep(w, a))
  {
    match a
    case RevokeGrant(p, reply) => RevocationSound(w, p, reply);
    case DeleteSession(p, reply) => DeletionSound(w, p, reply);
    case RemoveEntry(p, raised) => EntryRemovalSound(w, p, raised);
    case DropSecret(p) => SecretDropSound(w, p);
    case DropIntentSecret(p) => IntentSecretDropSound(w, p);
    case Unlink(p) => RemovalSound(w, p);
    case ReadIntent(p) => CustodyChecksSound(w, p);
    case SeeNotInstalled(p) => CustodyChecksSound(w, p);
    case OpenIntent(p) => CustodyChecksSound(w, p);
    case MatchFile(p) => CustodyChecksSound(w, p);
  }

  lemma OtherStepSound(w: World, a: Action)
    requires Sound(w) && !OfInstall(a) && !OfCustodian(a)
    ensures Sound(Step(w, a))
  {
    var v := Step(w, a);
    assert SoundStores(v.disk, v.server);
  }

  lemma StepSound(w: World, a: Action)
    requires Sound(w)
    ensures Sound(Step(w, a))
  {
    if OfInstall(a) || OfCustodian(a) {
      ProcessSteps(w, a);
      if OfInstall(a) && a.pid in w.installs {
        InstallStepSound(w, a);
      } else if OfCustodian(a) && a.pid in w.custodians {
        CustodyStepSound(w, a);
      }
    } else {
      OtherStepSound(w, a);
    }
  }

  // ----- Attempts that can do no more harm

  predicate Asking(at: Install, k: nat) { at == Created(k) || at == Recorded(k) }

  /** The grant of attempt `k` is not active and never will be: its session is
      deleted, or its grant is gone and no install is left to ask for one. */
  ghost predicate Spent(w: World, k: nat) {
    && k in w.disk.creators
    && (w.disk.creators[k] in w.server.deleted
        || ((k in w.server.grants ==> w.server.grants[k].state.Dead?)
            && forall p | p in w.installs :: !Asking(w.installs[p].at, k)))
  }

  lemma RequestStaysSpent(w: World, p: nat, k: nat)
    requires Sound(w) && Spent(w, k) && p in w.installs
    ensures Spent(RequestedGrant(w, p), k)
  {
  }

  lemma CreationStaysSpent(w: World, p: nat, k: nat)
    requires Sound(w) && Spent(w, k) && p in w.installs
    ensures Spent(CreatedIntent(w, p), k) && Spent(WroteIntent(w, p), k)
  {
    assert k < w.disk.made;
  }

  /** The other steps of an install neither create an attempt nor ask for a grant. */
  predicate Quiet(a: Action) {
    OfInstall(a) && !a.RequestGrant? && !a.CreateIntent? && !a.WriteIntent?
  }

  lemma QuietStepAsks(w: World, a: Action, k: nat)
    requires Quiet(a) && a.pid in w.installs
    ensures var v := InstallStep(w, a);
            forall p | p in v.installs && Asking(v.installs[p].at, k) :: p in w.installs && Asking(w.installs[p].at, k)
  {
  }

  lemma QuietStepKeeps(w: World, a: Action, k: nat)
    requires Quiet(a) && a.pid in w.installs
    ensures var v := InstallStep(w, a);
            && v.disk.creators == w.disk.creators && v.server.deleted == w.server.deleted
            && v.server.grants.Keys == w.server.grants.Keys
            && (k in w.server.grants && w.server.grants[k].state.Dead? ==> v.server.grants[k].state.Dead?)
  {
    if !a.RevokeOwn? { assert InstallStep(w, a).server == w.server; }
  }

  lemma InstallStaysSpent(w: World, a: Action, k: nat)
    requires Sound(w) && Spent(w, k) && OfInstall(a) && a.pid in w.installs
    ensures Spent(InstallStep(w, a), k)
  {
    if a.RequestGrant? {
      RequestStaysSpent(w, a.pid, k);
    } else if a.CreateIntent? || a.WriteIntent? {
      CreationStaysSpent(w, a.pid, k);
    } else {
      QuietStepAsks(w, a, k);
      QuietStepKeeps(w, a, k);
    }
  }

  lemma CustodianStaysSpent(w: World, a: Action, k: nat)
    requires Spent(w, k) && OfCustodian(a) && a.pid in w.custodians
    ensures Spent(CustodyStep(w, a), k)
  {
    var v := CustodyStep(w, a);
    assert v.installs == w.installs && v.disk.creators == w.disk.creators && w.server.deleted <= v.server.deleted;
  }

  lemma OtherStaysSpent(w: World, a: Action, k: nat)
    requires Spent(w, k) && !OfInstall(a) && !OfCustodian(a)
    ensures Spent(Step(w, a), k)
  {
  }

  lemma StaysSpent(w: World, a: Action, k: nat)
    requires Sound(w) && Spent(w, k)
    ensures Spent(Step(w, a), k)
  {
    if OfInstall(a) || OfCustodian(a) {
      ProcessSteps(w, a);
      if OfInstall(a) && a.pid in w.installs {
        InstallStaysSpent(w, a, k);
      } else if OfCustodian(a) && a.pid in w.custodians {
        CustodianStaysSpent(w, a, k);
      }
    } else {
      OtherStaysSpent(w, a, k);
    }
  }

  // ----- Every attempt has its file at the path or is spent

  ghost predicate Accounted(w: World) {
    forall k | k in w.disk.creators :: w.disk.receipt == Some(k) || Spent(w, k)
  }

  lemma AccountedCovers(w: World)
    requires Sound(w) && Accounted(w)
    ensures Covered(w)
  {
    forall g | PossiblyActive(w.server, g)
      ensures IntentAtPath(w.disk).Some? && IntentAtPath(w.disk).value.creator == w.server.grants[g].creator
    {
      assert g in w.disk.creators;
    }
  }

  lemma InstallsKeepPath(w: World, a: Action)
    requires OfInstall(a) && a.pid in w.installs && !a.CreateIntent?
    ensures InstallStep(w, a).disk.receipt == w.disk.receipt && InstallStep(w, a).disk.creators == w.disk.creators
  {
  }

  lemma InstallsCreate(w: World, a: Action)
    requires OfInstall(a) && a.pid in w.installs
    ensures var d, e := w.disk, InstallStep(w, a).disk;
            (e.receipt == d.receipt && e.creators == d.creators)
            || (d.receipt.None? && e.receipt == Some(d.made) && e.creators.Keys == d.creators.Keys + {d.made})
  {
    if !a.CreateIntent? { InstallsKeepPath(w, a); }
  }

  lemma CustodiansRemove(w: World, a: Action)
    requires OfCustodian(a) && a.pid in w.custodians
    ensures var e := CustodyStep(w, a).disk;
            && e.creators == w.disk.creators
            && (e.receipt == w.disk.receipt || (e.receipt.None? && a.Unlink? && w.custodians[a.pid].at.Matched?))
  {
  }

  lemma OthersKeepPath(w: World, a: Action)
    requires !OfInstall(a) && !OfCustodian(a)
    ensures Step(w, a).disk.receipt == w.disk.receipt && Step(w, a).disk.creators == w.disk.creators
  {
  }

  /** Only a creation puts a file at the path, and only the removal after a
      comparison takes it away. */
  lemma PathChanges(w: World, a: Action)
    ensures var d, e := w.disk, Step(w, a).disk;
            || (e.receipt == d.receipt && e.creators == d.creators)
            || (d.receipt.None? && e.receipt == Some(d.made) && e.creators.Keys == d.creators.Keys + {d.made})
            || (e.receipt.None? && e.creators == d.creators
                && a.Unlink? && a.pid in w.custodians && w.custodians[a.pid].at.Matched?)
  {
    if OfInstall(a) {
      ProcessSteps(w, a);
      if a.pid in w.installs { InstallsCreate(w, a); }
    } else if OfCustodian(a) {
      ProcessSteps(w, a);
      if a.pid in w.custodians { CustodiansRemove(w, a); }
    } else {
      OthersKeepPath(w, a);
    }
  }

  lemma StaysAccounted(w: World, a: Action)
    requires Sound(w) && Accounted(w) && Guarded(w, a)
    ensures Accounted(Step(w, a))
  {
    var v := Step(w, a);
    PathChanges(w, a);
    forall k | k in v.disk.creators ensures v.disk.receipt == Some(k) || Spent(v, k) {
      if k in w.disk.creators {
        if Spent(w, k) {
          StaysSpent(w, a, k);
        } else if v.disk.receipt != Some(k) {
          RemovedIsSpent(w, a, k);
        }
      }
    }
  }

  lemma RemovedIsSpent(w: World, a: Action, k: nat)
    requires Sound(w) && w.disk.receipt == Some(k) && Step(w, a).disk.receipt != Some(k) && Guarded(w, a)
    ensures Spent(Step(w, a), k)
  {
    PathChanges(w, a);
    assert SoundCustody(w.disk, w.server, w.custodians[a.pid].at);
    assert Spent(w, k);
    StaysSpent(w, a, k);
  }

  lemma {:induction false} StaysCovered(w: World, actions: seq<Action>)
    requires Sound(w) && Accounted(w) && GuardedRun(w, actions)
    ensures Covered(Run(w, actions))
    decreases |actions|
  {
    if actions == [] {
      AccountedCovers(w);
    } else {
      StepSound(w, actions[0]);
      StaysAccounted(w, actions[0]);
      StaysCovered(Step(w, actions[0]), actions[1..]);
    }
  }

  // ----- Exactly when a removal is safe for good

  lemma InvIsSound(w: World)
    requires Inv(w)
    ensures Sound(w) && Accounted(w)
  {
    forall p | p in w.installs ensures SoundInstall(w.disk, w.installs[p]) {
      assert InstallOk(w.disk, w.server, w.installs[p]);
    }
    forall p | p in w.custodians ensures SoundCustody(w.disk, w.server, w.custodians[p].at) {
      assert CustodyOk(w.disk, w.server, w.custodians[p].at);
    }
  }

  /** Every guarded run from here on keeps all grants covered. */
  ghost predicate CoveredForGood(w: World) {
    forall actions | GuardedRun(w, actions) :: Covered(Run(w, actions))
  }

  /** Removing a file that was not compared leaves an attempt without its file. */
  lemma RemovalAccounts(w: World, p: nat)
    requires Sound(w) && Accounted(w) && p in w.custodians && w.custodians[p].at.Matched? && w.disk.receipt.Some?
    requires Spent(w, w.disk.receipt.value)
    ensures Sound(Step(w, Unlink(p))) && Accounted(Step(w, Unlink(p)))
  {
    var v := Step(w, Unlink(p));
    StepSound(w, Unlink(p));
    PathChanges(w, Unlink(p));
    forall k | k in v.disk.creators ensures v.disk.receipt == Some(k) || Spent(v, k) {
      StaysSpent(w, Unlink(p), k);
    }
  }

  /** An install that is about to ask for the grant of an attempt whose file is gone. */
  lemma AskingUncovers(w: World, q: nat, k: nat)
    requires q in w.installs && w.installs[q].at == Recorded(k) && w.disk.receipt.None?
    requires w.installs[q].owner !in w.server.deleted
    ensures !Covered(Step(w, RequestGrant(q)))
  {
    ProcessSteps(w, RequestGrant(q));
    assert PossiblyActive(Step(w, RequestGrant(q)).server, k);
  }

  lemma WritesFirst(w: World, q: nat, k: nat)
    requires q in w.installs && w.installs[q].at == Created(k)
    ensures var v := Step(w, WriteIntent(q));
            && q in v.installs && v.installs[q] == Process(w.installs[q].owner, Recorded(k))
            && v.disk.receipt == w.disk.receipt && v.server == w.server
  {
    ProcessSteps(w, WriteIntent(q));
  }

  lemma AskingIsNotForGood(w: World, q: nat, k: nat)
    requires q in w.installs && Asking(w.installs[q].at, k) && w.disk.receipt.None?
    requires w.installs[q].owner !in w.server.deleted
    ensures !CoveredForGood(w)
  {
    if w.installs[q].at == Recorded(k) {
      AskingUncovers(w, q, k);
      GrantProgress.RunOne(w, RequestGrant(q));
      assert GuardedRun(w, [RequestGrant(q)]);
    } else {
      WritesFirst(w, q, k);
      AskingUncovers(Step(w, WriteIntent(q)), q, k);
      GrantProgress.RunTwo(w, WriteIntent(q), RequestGrant(q));
      var actions := [WriteIntent(q), RequestGrant(q)];
      assert actions[1..] == [RequestGrant(q)];
      assert GuardedRun(w, actions);
    }
  }

  lemma UnspentIsNotForGood(w: World, k: nat)
    requires Sound(w) && k in w.disk.creators && !Spent(w, k) && w.disk.receipt.None?
    ensures !CoveredForGood(w)
  {
    if k in w.server.grants && !w.server.grants[k].state.Dead? {
      assert PossiblyActive(w.server, k) && !Covered(w);
      assert GuardedRun(w, []) && Run(w, []) == w;
    } else {
      var q :| q in w.installs && Asking(w.installs[q].at, k);
      assert SoundInstall(w.disk, w.installs[q]);
      AskingIsNotForGood(w, q, k);
    }
  }

  lemma SpentBefore(w: World, p: nat, k: nat)
    requires p in w.custodians && w.custodians[p].at.Matched? && Spent(Step(w, Unlink(p)), k)
    ensures Spent(w, k)
  {
    ProcessSteps(w, Unlink(p));
  }

  lemma RemovalDecides(w: World, p: nat)
    requires Sound(w) && Accounted(w) && p in w.custodians && w.custodians[p].at.Matched?
    ensures CoveredForGood(Step(w, Unlink(p))) <==> Guarded(w, Unlink(p)) || Spent(w, w.disk.receipt.value)
  {
    var v := Step(w, Unlink(p));
    StepSound(w, Unlink(p));
    if Guarded(w, Unlink(p)) || Spent(w, w.disk.receipt.value) {
      if Guarded(w, Unlink(p)) { StaysAccounted(w, Unlink(p)); } else { RemovalAccounts(w, p); }
      forall more | GuardedRun(v, more) ensures Covered(Run(v, more)) {
        StaysCovered(v, more);
      }
    } else {
      var k := w.disk.receipt.value;
      PathChanges(w, Unlink(p));
      ProcessSteps(w, Unlink(p));
      if Spent(v, k) { SpentBefore(w, p, k); }
      UnspentIsNotForGood(v, k);
    }
  }

  /** After any guarded run, removing the file at the path keeps every grant covered
      in all guarded runs that follow if and only if it is the file that was compared,
      or none is there, or the attempt that it belongs to is spent. */
  lemma RemovalIsExact(actions: seq<Action>, p: nat)
    requires var w := Run(START, actions);
             GuardedRun(START, actions) && p in w.custodians && w.custodians[p].at.Matched?
    ensures var w := Run(START, actions);
            CoveredForGood(Step(w, Unlink(p))) <==> Guarded(w, Unlink(p)) || Spent(w, w.disk.receipt.value)
  {
    var w := Run(START, actions);
    RunKeeps(START, actions);
    InvIsSound(w);
    RemovalDecides(w, p);
  }
}
