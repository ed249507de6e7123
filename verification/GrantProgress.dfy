/** Setup, recovery and disconnect do their work when nothing disturbs them:
    from what any crash left behind one recovery leads back to a clean start, and
    an install followed by a disconnect does so too. */
module GrantProgress {
  import opened Wrappers
  import opened GrantSetup
  import opened GrantSafety

  // ----- Runs in stages

  lemma {:induction false} RunAppend(w: World, a: seq<Action>, b: seq<Action>)
    ensures Run(w, a + b) == Run(Run(w, a), b)
    decreases |a|
  {
    if a == [] {
      assert a + b == b;
    } else {
      assert (a + b)[1..] == a[1..] + b;
      RunAppend(Step(w, a[0]), a[1..], b);
    }
  }

  lemma RunOne(w: World, a: Action)
    ensures Run(w, [a]) == Step(w, a)
  {
    assert [a][1..] == [];
  }

  lemma RunTwo(w: World, a: Action, b: Action)
    ensures Run(w, [a, b]) == Step(Step(w, a), b)
  {
    assert [a, b] == [a] + [b];
    RunAppend(w, [a], [b]);
    RunOne(w, a);
    RunOne(Step(w, a), b);
  }

  lemma RunThree(w: World, a: seq<Action>, b: seq<Action>, c: seq<Action>)
    ensures Run(w, a + b + c) == Run(Run(Run(w, a), b), c)
  {
    RunAppend(w, a + b, c);
    RunAppend(w, a, b);
  }

  // ----- A recovery

  /** A recovery until it has read the intent, until it has compared the file at
      the path, and to its end. */
  function Opening(p: nat): seq<Action> { [SeeNotInstalled(p), OpenIntent(p)] }

  function Clearing(p: nat): seq<Action> { [DeleteSession(p, Reached), DropIntentSecret(p)] + [MatchFile(p)] }

  function Cleaning(p: nat): seq<Action> { Clearing(p) + [Unlink(p)] }

  function Reading(p: nat, owner: Session): seq<Action> { [StartRecover(p, owner)] + Opening(p) }

  function Recovery(p: nat, owner: Session): seq<Action> { Reading(p, owner) + Cleaning(p) }

  predicate SameUser(a: Session, b: Session) { a.origin == b.origin && a.user == b.user }

  lemma IntentIsOpened(w: World, p: nat)
    requires p in w.custodians && w.custodians[p].at.Entering?
    requires w.disk.entry.None? && IntentAtPath(w.disk).Some?
    requires SameUser(IntentAtPath(w.disk).value.creator, w.custodians[p].owner)
    ensures Run(w, Opening(p)) == MoveCustodian(w, p, Opened(w.disk.receipt.value, IntentAtPath(w.disk).value))
  {
    RunTwo(w, SeeNotInstalled(p), OpenIntent(p));
    var u := Step(w, SeeNotInstalled(p));
    ProcessSteps(w, SeeNotInstalled(p));
    assert u == MoveCustodian(w, p, NotInstalled);
    ProcessSteps(u, OpenIntent(p));
  }

  lemma RecoveryReads(w: World, p: nat, owner: Session)
    requires p !in w.custodians && w.disk.entry.None? && IntentAtPath(w.disk).Some?
    requires SameUser(IntentAtPath(w.disk).value.creator, owner)
    ensures Run(w, Reading(p, owner)) == w.(custodians :=
              w.custodians[p := Process(owner, Opened(w.disk.receipt.value, IntentAtPath(w.disk).value))])
  {
    RunAppend(w, [StartRecover(p, owner)], Opening(p));
    RunOne(w, StartRecover(p, owner));
    var u := w.(custodians := w.custodians[p := Process(owner, Entering)]);
    assert Step(w, StartRecover(p, owner)) == u;
    IntentIsOpened(u, p);
    var at := Opened(w.disk.receipt.value, IntentAtPath(w.disk).value);
    assert u.custodians[p := Process(owner, at)] == w.custodians[p := Process(owner, at)];
  }

  lemma SessionGone(w: World, p: nat)
    requires p in w.custodians && w.custodians[p].at.Opened?
    ensures var at := w.custodians[p].at;
            Step(w, DeleteSession(p, Reached))
            == MoveCustodian(w, p, Confirmed(at.file, at.intent)).(
                 server := SessionConfirmed(SessionDeleted(w.server, at.intent.creator), at.intent.creator))
  {
    ProcessSteps(w, DeleteSession(p, Reached));
  }

  lemma SecretGone(w: World, p: nat)
    requires p in w.custodians && w.custodians[p].at.Confirmed?
    ensures var at := w.custodians[p].at;
            Step(w, DropIntentSecret(p))
            == MoveCustodian(w, p, Cleared(at.file)).(disk := w.disk.(secrets := w.disk.secrets - {at.intent.secret}))
  {
    ProcessSteps(w, DropIntentSecret(p));
  }

  lemma FileMatches(w: World, p: nat)
    requires p in w.custodians && w.custodians[p].at.Cleared? && w.disk.receipt == Some(w.custodians[p].at.file)
    ensures Step(w, MatchFile(p)) == MoveCustodian(w, p, Matched(w.custodians[p].at.file))
  {
    ProcessSteps(w, MatchFile(p));
  }

  lemma RecoveryMatches(w: World, p: nat)
    requires p in w.custodians && w.custodians[p].at.Opened? && w.disk.receipt == Some(w.custodians[p].at.file)
    ensures var v, at := Run(w, Clearing(p)), w.custodians[p].at;
            && v.disk == w.disk.(secrets := w.disk.secrets - {at.intent.secret}) && v.installs == w.installs
            && v.custodians == w.custodians[p := w.custodians[p].(at := Matched(at.file))]
            && v.server == SessionConfirmed(SessionDeleted(w.server, at.intent.creator), at.intent.creator)
  {
    RunAppend(w, [DeleteSession(p, Reached), DropIntentSecret(p)], [MatchFile(p)]);
    RunTwo(w, DeleteSession(p, Reached), DropIntentSecret(p));
    SessionGone(w, p);
    var w1 := Step(w, DeleteSession(p, Reached));
    SecretGone(w1, p);
    var w2 := Step(w1, DropIntentSecret(p));
    RunOne(w2, MatchFile(p));
    FileMatches(w2, p);
  }

  lemma RecoveryCleans(w: World, p: nat)
    requires p in w.custodians && w.custodians[p].at.Opened? && w.disk.receipt == Some(w.custodians[p].at.file)
    ensures var v, at := Run(w, Cleaning(p)), w.custodians[p].at;
            && v.disk == w.disk.(secrets := w.disk.secrets - {at.intent.secret}, receipt := None,
                                 unlinked := w.disk.unlinked + 1)
            && v.installs == w.installs && v.custodians == w.custodians - {p}
            && v.server == SessionConfirmed(SessionDeleted(w.server, at.intent.creator), at.intent.creator)
  {
    RunAppend(w, Clearing(p), [Unlink(p)]);
    RecoveryMatches(w, p);
    var u := Run(w, Clearing(p));
    RunOne(u, Unlink(p));
    ProcessSteps(u, Unlink(p));
    assert u.custodians - {p} == w.custodians - {p};
  }

  /** The intent covers every grant there is, so deleting its creator ends them all. */
  lemma DeletionEndsAll(w: World, creator: Session)
    requires Covered(w) && (IntentAtPath(w.disk).Some? ==> IntentAtPath(w.disk).value.creator == creator)
    ensures forall g :: !PossiblyActive(SessionConfirmed(SessionDeleted(w.server, creator), creator), g)
  {
    var t := SessionDeleted(w.server, creator);
    forall g ensures !PossiblyActive(t, g) {
      assert PossiblyActive(t, g) ==> PossiblyActive(w.server, g);
    }
  }

  /** From any reachable state, whatever crashed before: if an intent is on
      record and nothing is installed, a recovery by its user ends every grant,
      drops the secret, removes the intent and touches nothing else, so that an
      install may begin anew. */
  lemma RecoveryCompletes(w: World, p: nat, owner: Session)
    requires Inv(w) && p !in w.custodians && w.disk.entry.None? && IntentAtPath(w.disk).Some?
    requires SameUser(IntentAtPath(w.disk).value.creator, owner)
    ensures var v, intent := Run(w, Recovery(p, owner)), IntentAtPath(w.disk).value;
            && v.disk == w.disk.(secrets := w.disk.secrets - {intent.secret}, receipt := None,
                                 unlinked := w.disk.unlinked + 1)
            && v.installs == w.installs && v.custodians == w.custodians
            && v.server.recoveries == w.server.recoveries + 1
            && forall g :: !PossiblyActive(v.server, g)
  {
    RunAppend(w, Reading(p, owner), Cleaning(p));
    RecoveryReads(w, p, owner);
    var u := Run(w, Reading(p, owner));
    RecoveryCleans(u, p);
    assert u.custodians - {p} == w.custodians;
    IntentCovers(w);
    DeletionEndsAll(w, IntentAtPath(w.disk).value.creator);
  }

  // ----- An install

  lemma InstallBegins(w: World, p: nat, owner: Session)
    requires p !in w.installs && w.disk.entry.None?
    ensures Run(w, [StartInstall(p, owner), SeeNoEntry(p)]) == w.(installs := w.installs[p := Process(owner, NoEntry)])
  {
    RunTwo(w, StartInstall(p, owner), SeeNoEntry(p));
    var u := Step(w, StartInstall(p, owner));
    ProcessSteps(u, SeeNoEntry(p));
    var at := Process(owner, NoEntry);
    assert u.installs[p := at] == w.installs[p := at];
  }

  lemma FileIsCreated(w: World, p: nat)
    requires p in w.installs && w.installs[p].at == NoEntry && w.disk.receipt.None?
    ensures Run(w, [SeeNoIntent(p), CreateIntent(p)])
         == w.(installs := w.installs[p := Process(w.installs[p].owner, Created(w.disk.made))],
               disk := NewFile(w.disk, w.installs[p].owner))
  {
    RunTwo(w, SeeNoIntent(p), CreateIntent(p));
    ProcessSteps(w, SeeNoIntent(p));
    var u := Step(w, SeeNoIntent(p));
    ProcessSteps(u, CreateIntent(p));
    var at := Process(w.installs[p].owner, Created(w.disk.made));
    assert u.installs[p := at] == w.installs[p := at];
  }

  lemma GrantIsRequested(w: World, p: nat, k: nat)
    requires p in w.installs && w.installs[p].at == Created(k) && w.installs[p].owner !in w.server.deleted
    ensures var owner := w.installs[p].owner;
            Run(w, [WriteIntent(p), RequestGrant(p)])
            == w.(installs := w.installs[p := Process(owner, Requested(k))],
                  disk := w.disk.(files := w.disk.files[k := Some(Intent(owner, k, None))]),
                  server := w.server.(grants := w.server.grants[k := Grant(owner, Pending)]))
  {
    RunTwo(w, WriteIntent(p), RequestGrant(p));
    ProcessSteps(w, WriteIntent(p));
    var u := Step(w, WriteIntent(p));
    ProcessSteps(u, RequestGrant(p));
    var at := Process(w.installs[p].owner, Requested(k));
    assert u.installs[p := at] == w.installs[p := at];
  }

  lemma GrantIsReceived(w: World, p: nat, k: nat)
    requires p in w.installs && w.installs[p].at == Requested(k)
    requires k in w.server.grants && w.server.grants[k].state == Pending
    ensures Run(w, [Land(k), ReceiveGrant(p)])
         == w.(installs := w.installs[p := Process(w.installs[p].owner, Issued(k))],
               server := w.server.(grants := w.server.grants[k := w.server.grants[k].(state := Active)]))
  {
    RunTwo(w, Land(k), ReceiveGrant(p));
    ProcessSteps(Step(w, Land(k)), ReceiveGrant(p));
  }

  lemma GrantIsStored(w: World, p: nat, k: nat)
    requires p in w.installs && w.installs[p].at == Issued(k)
    ensures var owner := w.installs[p].owner;
            Run(w, [NoteGrant(p), PutSecret(p, false)])
            == w.(installs := w.installs[p := Process(owner, Stored(k))],
                  disk := w.disk.(files := w.disk.files[k := Some(Intent(owner, k, Some(k)))],
                                  secrets := w.disk.secrets + {k}))
  {
    RunTwo(w, NoteGrant(p), PutSecret(p, false));
    ProcessSteps(w, NoteGrant(p));
    var u := Step(w, NoteGrant(p));
    ProcessSteps(u, PutSecret(p, false));
    var at := Process(w.installs[p].owner, Stored(k));
    assert u.installs[p := at] == w.installs[p := at];
  }

  lemma EntryIsInstalled(w: World, p: nat, k: nat)
    requires p in w.installs && w.installs[p].at == Stored(k) && w.disk.entry.None?
    ensures Run(w, [InstallEntry(p, false)])
         == w.(installs := w.installs - {p}, disk := w.disk.(entry := Some(Entry(k, k))))
  {
    RunOne(w, InstallEntry(p, false));
    ProcessSteps(w, InstallEntry(p, false));
  }

  function Recording(p: nat, owner: Session): seq<Action> {
    [StartInstall(p, owner), SeeNoEntry(p)] + [SeeNoIntent(p), CreateIntent(p)] + [WriteIntent(p), RequestGrant(p)]
  }

  function Storing(p: nat, k: nat): seq<Action> {
    [Land(k), ReceiveGrant(p)] + [NoteGrant(p), PutSecret(p, false)] + [InstallEntry(p, false)]
  }

  /** The world in which an install has recorded its intent and asked for its grant. */
  function Asked(w: World, p: nat, owner: Session): World {
    var k := w.disk.made;
    var d := NewFile(w.disk, owner);
    w.(installs := w.installs[p := Process(owner, Requested(k))],
       disk := d.(files := d.files[k := Some(Intent(owner, k, None))]),
       server := w.server.(grants := w.server.grants[k := Grant(owner, Pending)]))
  }

  function Made(w: World, p: nat, owner: Session): World {
    w.(installs := w.installs[p := Process(owner, Created(w.disk.made))], disk := NewFile(w.disk, owner))
  }

  lemma CreatingMakes(w: World, p: nat, owner: Session)
    requires p !in w.installs && w.disk.entry.None? && w.disk.receipt.None?
    ensures Run(w, [StartInstall(p, owner), SeeNoEntry(p)] + [SeeNoIntent(p), CreateIntent(p)]) == Made(w, p, owner)
  {
    RunAppend(w, [StartInstall(p, owner), SeeNoEntry(p)], [SeeNoIntent(p), CreateIntent(p)]);
    InstallBegins(w, p, owner);
    var u := w.(installs := w.installs[p := Process(owner, NoEntry)]);
    FileIsCreated(u, p);
    var at := Process(owner, Created(w.disk.made));
    assert u.installs[p := at] == w.installs[p := at];
  }

  lemma RecordingAsks(w: World, p: nat, owner: Session)
    requires p !in w.installs && w.disk.entry.None? && w.disk.receipt.None? && owner !in w.server.deleted
    ensures Run(w, Recording(p, owner)) == Asked(w, p, owner)
  {
    RunAppend(w, [StartInstall(p, owner), SeeNoEntry(p)] + [SeeNoIntent(p), CreateIntent(p)], [WriteIntent(p), RequestGrant(p)]);
    CreatingMakes(w, p, owner);
    var u := Made(w, p, owner);
    GrantIsRequested(u, p, w.disk.made);
    var at := Process(owner, Requested(w.disk.made));
    assert u.installs[p := at] == w.installs[p := at];
  }

  lemma StoringInstalls(w: World, p: nat, k: nat)
    requires p in w.installs && w.installs[p].at == Requested(k) && w.disk.entry.None?
    requires k in w.server.grants && w.server.grants[k].state == Pending
    ensures var owner := w.installs[p].owner;
            Run(w, Storing(p, k))
            == w.(installs := w.installs - {p},
                  disk := w.disk.(files := w.disk.files[k := Some(Intent(owner, k, Some(k)))],
                                  secrets := w.disk.secrets + {k}, entry := Some(Entry(k, k))),
                  server := w.server.(grants := w.server.grants[k := w.server.grants[k].(state := Active)]))
  {
    RunThree(w, [Land(k), ReceiveGrant(p)], [NoteGrant(p), PutSecret(p, false)], [InstallEntry(p, false)]);
    GrantIsReceived(w, p, k);
    var u := Run(w, [Land(k), ReceiveGrant(p)]);
    GrantIsStored(u, p, k);
    var x := Run(u, [NoteGrant(p), PutSecret(p, false)]);
    EntryIsInstalled(x, p, k);
    assert x.installs - {p} == w.installs - {p};
  }

  /** With no entry and no intent, an install leaves an active grant, its token in
      custody, the entry that names both, and the intent that covers them. */
  lemma InstallCompletes(w: World, p: nat, owner: Session)
    requires p !in w.installs && w.disk.entry.None? && w.disk.receipt.None? && owner !in w.server.deleted
    ensures var v, k := Run(w, Recording(p, owner) + Storing(p, w.disk.made)), w.disk.made;
            && v.installs == w.installs && v.custodians == w.custodians
            && v.disk.entry == Some(Entry(k, k)) && v.disk.secrets == w.disk.secrets + {k}
            && v.disk.receipt == Some(k) && IntentAtPath(v.disk) == Some(Intent(owner, k, Some(k)))
            && v.server == w.server.(grants := w.server.grants[k := Grant(owner, Active)])
  {
    RunAppend(w, Recording(p, owner), Storing(p, w.disk.made));
    RecordingAsks(w, p, owner);
    var u := Asked(w, p, owner);
    StoringInstalls(u, p, w.disk.made);
    assert u.installs - {p} == w.installs;
  }

  // ----- A disconnect

  lemma GrantIsRevoked(w: World, p: nat, owner: Session, e: Entry)
    requires p !in w.custodians && w.disk.entry == Some(e) && Plannable(w, e)
    ensures Run(w, [StartDisconnect(p, owner, e), RevokeGrant(p, Reached)])
         == w.(custodians := w.custodians[p := Process(owner, Revoked(e, true))],
               server := GrantConfirmed(GrantDead(w.server, e.grant), e.grant))
  {
    RunTwo(w, StartDisconnect(p, owner, e), RevokeGrant(p, Reached));
    var u := Step(w, StartDisconnect(p, owner, e));
    ProcessSteps(u, RevokeGrant(p, Reached));
    var at := Process(owner, Revoked(e, true));
    assert u.custodians[p := at] == w.custodians[p := at];
  }

  lemma EntryIsRemoved(w: World, p: nat, e: Entry)
    requires p in w.custodians && w.custodians[p].at == Revoked(e, true) && w.disk.entry == Some(e)
    requires IntentAtPath(w.disk).Some? && IntentAtPath(w.disk).value.grant == Some(e.grant)
    requires IntentAtPath(w.disk).value.secret == e.secret
    ensures Run(w, [RemoveEntry(p, false), ReadIntent(p)])
         == w.(custodians := w.custodians[p := Process(w.custodians[p].owner, Entering)],
               disk := w.disk.(entry := None))
  {
    RunTwo(w, RemoveEntry(p, false), ReadIntent(p));
    ProcessSteps(w, RemoveEntry(p, false));
    var u := Step(w, RemoveEntry(p, false));
    ProcessSteps(u, ReadIntent(p));
    var at := Process(w.custodians[p].owner, Entering);
    assert u.custodians[p := at] == w.custodians[p := at];
  }

  function Removing(p: nat, owner: Session, e: Entry): seq<Action> {
    [StartDisconnect(p, owner, e), RevokeGrant(p, Reached)] + [RemoveEntry(p, false), ReadIntent(p)]
  }

  function Disconnection(p: nat, owner: Session, e: Entry): seq<Action> { Removing(p, owner, e) + Opening(p) + Cleaning(p) }

  lemma RemovingRevokes(w: World, p: nat, owner: Session, e: Entry)
    requires p !in w.custodians && w.disk.entry == Some(e) && Plannable(w, e)
    requires IntentAtPath(w.disk).Some? && IntentAtPath(w.disk).value.grant == Some(e.grant)
    requires IntentAtPath(w.disk).value.secret == e.secret
    ensures Run(w, Removing(p, owner, e))
         == w.(custodians := w.custodians[p := Process(owner, Entering)],
               server := GrantConfirmed(GrantDead(w.server, e.grant), e.grant),
               disk := w.disk.(entry := None))
  {
    RunAppend(w, [StartDisconnect(p, owner, e), RevokeGrant(p, Reached)], [RemoveEntry(p, false), ReadIntent(p)]);
    GrantIsRevoked(w, p, owner, e);
    var u := Run(w, [StartDisconnect(p, owner, e), RevokeGrant(p, Reached)]);
    EntryIsRemoved(u, p, e);
    var at := Process(owner, Entering);
    assert u.custodians[p := at] == w.custodians[p := at];
  }

  lemma RevocationKeepsCover(w: World, g: int, u: World)
    requires Covered(w) && u.disk.receipt == w.disk.receipt && u.disk.files == w.disk.files
    requires u.server == GrantConfirmed(GrantDead(w.server, g), g)
    ensures Covered(u)
  {
    forall h | PossiblyActive(u.server, h)
      ensures PossiblyActive(w.server, h) && u.server.grants[h] == w.server.grants[h]
    {
    }
  }

  /** From any reachable state in which the entry and the intent belong together:
      a disconnect by the same user removes entry, secret and intent, and no
      grant is or may become active. */
  lemma DisconnectCompletes(w: World, p: nat, owner: Session, e: Entry)
    requires Inv(w) && p !in w.custodians && w.disk.entry == Some(e) && Plannable(w, e)
    requires IntentAtPath(w.disk).Some? && SameUser(IntentAtPath(w.disk).value.creator, owner)
    requires IntentAtPath(w.disk).value.grant == Some(e.grant) && IntentAtPath(w.disk).value.secret == e.secret
    ensures var v := Run(w, Disconnection(p, owner, e));
            && v.disk == w.disk.(entry := None, secrets := w.disk.secrets - {e.secret}, receipt := None,
                                 unlinked := w.disk.unlinked + 1)
            && v.installs == w.installs && v.custodians == w.custodians
            && forall g :: !PossiblyActive(v.server, g)
  {
    RunThree(w, Removing(p, owner, e), Opening(p), Cleaning(p));
    RemovingRevokes(w, p, owner, e);
    var u := Run(w, Removing(p, owner, e));
    IntentIsOpened(u, p);
    var x := Run(u, Opening(p));
    RecoveryCleans(x, p);
    assert x.custodians - {p} == w.custodians;
    IntentCovers(w);
    RevocationKeepsCover(w, e.grant, u);
    DeletionEndsAll(u, IntentAtPath(w.disk).value.creator);
  }
}
