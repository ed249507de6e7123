/** What every run of the grant setup machine keeps. */
module GrantSafety {
  import opened Wrappers
  import opened GrantSetup

  // ----- The properties

  /** Some process was told that this grant, or the session behind it, is gone. */
  predicate ConfirmedRevoked(s: Server, g: int) {
    g in s.confirmedGrants || (g in s.grants && s.grants[g].creator in s.confirmedSessions)
  }

  /** A grant that is active, or may still become so. */
  predicate PossiblyActive(s: Server, g: int) {
    g in s.grants && !s.grants[g].state.Dead?
  }

  /** Each such grant is covered by the intent file at the path, which names the
      session that created it. */
  ghost predicate Covered(w: World) {
    forall g | PossiblyActive(w.server, g) ::
      IntentAtPath(w.disk).Some? && IntentAtPath(w.disk).value.creator == w.server.grants[g].creator
  }

  /** A step lets go of a secret, of the installed entry or of the intent file
      only when the grants behind it are confirmed revoked. */
  ghost predicate ReleasesOnlyRevoked(d: Disk, s: Server, e: Disk) {
    && (forall k | k in d.secrets && k !in e.secrets :: ConfirmedRevoked(s, k))
    && (d.entry.Some? && e.entry.None? && d.entry.value.grant in s.grants ==>
          ConfirmedRevoked(s, d.entry.value.grant))
    && (d.receipt.Some? && e.receipt != d.receipt ==>
          && d.receipt.value in d.creators
          && d.creators[d.receipt.value] in s.confirmedSessions
          && forall g :: !PossiblyActive(s, g))
  }

  // ----- The invariant

  ghost predicate DiskInv(d: Disk) {
    && (forall k: nat :: k in d.files <==> k < d.made)
    && (forall k: nat :: k in d.creators <==> k < d.made)
    && (d.receipt.Some? ==> d.receipt.value < d.made)
    && (forall k | k in d.files && d.files[k].Some? && k in d.creators ::
          d.files[k].value.creator == d.creators[k] && d.files[k].value.secret == k)
  }

  ghost predicate ServerInv(s: Server) {
    && s.confirmedSessions <= s.deleted
    && (forall g | g in s.grants && s.grants[g].creator in s.deleted :: s.grants[g].state.Dead?)
    && (forall g | g in s.confirmedGrants :: g in s.grants && s.grants[g].state.Dead?)
  }

  /** Grants belong to attempts; an attempt whose file is gone is recovered. */
  ghost predicate StoresInv(d: Disk, s: Server) {
    && DiskInv(d) && ServerInv(s)
    && (forall g | g in s.grants :: 0 <= g < d.made && d.files[g].Some? && s.grants[g].creator == d.creators[g])
    && (forall k | k in d.secrets :: k in s.grants)
    && (forall k | k in d.creators :: d.receipt == Some(k) || d.creators[k] in s.confirmedSessions)
  }

  predicate Recording(d: Disk, owner: Session, k: nat) {
    k in d.creators && k in d.files && d.creators[k] == owner
  }

  predicate InstallOk(d: Disk, s: Server, p: Process<Install>) {
    match p.at
    case Begun => true
    case NoEntry => true
    case NoIntent => true
    case Created(k) => Recording(d, p.owner, k) && d.files[k].None? && k !in s.grants
    case Recorded(k) => Recording(d, p.owner, k) && d.files[k].Some? && k !in s.grants
    case RevokedOwn(k) => k in s.confirmedGrants
    case _ => Recording(d, p.owner, p.at.k) && p.at.k in s.grants
  }

  function Attempt(at: Install): Option<nat> {
    match at
    case Begun => None
    case NoEntry => None
    case NoIntent => None
    case _ => Some(at.k)
  }

  ghost predicate InstallsInv(d: Disk, s: Server, installs: map<nat, Process<Install>>) {
    && (forall p | p in installs :: InstallOk(d, s, installs[p]))
    && (forall p, q | p in installs && q in installs && Attempt(installs[p].at) == Attempt(installs[q].at) ::
          Attempt(installs[p].at).None? || p == q)
  }

  /** The file a recovery works on was written by its creator. */
  predicate Written(d: Disk, file: nat) {
    file in d.files && d.files[file].Some? && file in d.creators
  }

  predicate CustodyOk(d: Disk, s: Server, at: Custody) {
    match at
    case Planned(e, _) => (e.grant < 0 || e.grant in s.grants) && e.secret < d.made
    case Revoked(e, _) => (e.grant < 0 || e.grant in s.confirmedGrants) && e.secret < d.made
    case Removed(e) => e.secret < d.made
    case Unrecorded(k) => k < 0 || (k in d.creators && d.creators[k] in s.confirmedSessions)
    case Entering => true
    case NotInstalled => true
    case Opened(file, intent) => Written(d, file) && intent.secret == file && intent.creator == d.creators[file]
    case Confirmed(file, intent) => intent.secret == file && Recovered(d, s, file)
    case Cleared(file) => Recovered(d, s, file)
    case Matched(file) => Recovered(d, s, file)
  }

  /** The session that created the file is confirmed to be deleted. */
  predicate Recovered(d: Disk, s: Server, file: nat) {
    Written(d, file) && d.creators[file] in s.confirmedSessions
  }

  ghost predicate CustodiansInv(d: Disk, s: Server, custodians: map<nat, Process<Custody>>) {
    forall p | p in custodians :: CustodyOk(d, s, custodians[p].at)
  }

  ghost predicate Inv(w: World) {
    && StoresInv(w.disk, w.server)
    && InstallsInv(w.disk, w.server, w.installs)
    && CustodiansInv(w.disk, w.server, w.custodians)
  }

  // ----- The stores grow under the processes

  /** A change of the stores that takes nothing away from any process. */
  ghost predicate Grows(d: Disk, s: Server, e: Disk, t: Server) {
    && (forall k | k in d.creators :: k in e.creators && e.creators[k] == d.creators[k])
    && (forall k | k in d.files :: k in e.files && (d.files[k].Some? ==> e.files[k].Some?))
    && d.made <= e.made
    && (forall g | g in s.grants :: g in t.grants)
    && s.confirmedGrants <= t.confirmedGrants
    && s.confirmedSessions <= t.confirmedSessions
  }

  /** An install that has not asked for its grant still finds its own file, and no grant. */
  predicate Undisturbed(d: Disk, s: Server, at: Install) {
    && (at.Created? ==> at.k in d.files && d.files[at.k].None? && at.k !in s.grants)
    && (at.Recorded? ==> at.k !in s.grants)
  }

  lemma InstallGrows(d: Disk, s: Server, e: Disk, t: Server, p: Process<Install>)
    requires InstallOk(d, s, p) && Grows(d, s, e, t) && Undisturbed(e, t, p.at)
    ensures InstallOk(e, t, p)
  {
  }

  lemma CustodiansGrow(d: Disk, s: Server, e: Disk, t: Server, custodians: map<nat, Process<Custody>>)
    requires CustodiansInv(d, s, custodians) && Grows(d, s, e, t)
    ensures CustodiansInv(e, t, custodians)
  {
    forall p | p in custodians ensures CustodyOk(e, t, custodians[p].at) {
      assert CustodyOk(d, s, custodians[p].at);
    }
  }

  lemma StoresGrow(w: World, e: Disk, t: Server)
    requires Inv(w) && StoresInv(e, t) && Grows(w.disk, w.server, e, t)
    requires forall p | p in w.installs :: Undisturbed(e, t, w.installs[p].at)
    ensures Inv(w.(disk := e, server := t))
  {
    CustodiansGrow(w.disk, w.server, e, t, w.custodians);
    forall p | p in w.installs ensures InstallOk(e, t, w.installs[p]) {
      InstallGrows(w.disk, w.server, e, t, w.installs[p]);
    }
  }

  lemma EntryKeeps(w: World, entry: Option<Entry>)
    requires Inv(w)
    ensures Inv(w.(disk := w.disk.(entry := entry)))
  {
    assert forall p | p in w.installs :: InstallOk(w.disk, w.server, w.installs[p]);
    StoresGrow(w, w.disk.(entry := entry), w.server);
  }

  lemma SecretsKeep(w: World, secrets: set<int>)
    requires Inv(w) && forall k | k in secrets :: k in w.server.grants
    ensures Inv(w.(disk := w.disk.(secrets := secrets)))
  {
    assert forall p | p in w.installs :: InstallOk(w.disk, w.server, w.installs[p]);
    StoresGrow(w, w.disk.(secrets := secrets), w.server);
  }

  /** A change at the server that neither adds nor removes a create request. */
  lemma ServerKeeps(w: World, t: Server)
    requires Inv(w) && ServerInv(t)
    requires t.grants.Keys == w.server.grants.Keys
    requires forall g | g in t.grants :: t.grants[g].creator == w.server.grants[g].creator
    requires w.server.confirmedGrants <= t.confirmedGrants
    requires w.server.confirmedSessions <= t.confirmedSessions
    ensures Inv(w.(server := t))
  {
    assert forall p | p in w.installs :: InstallOk(w.disk, w.server, w.installs[p]);
    StoresGrow(w, w.disk, t);
  }

  // ----- Moves of one process, with the stores as they are

  lemma MoveInstallKeeps(w: World, p: nat, at: Install)
    requires Inv(w) && p in w.installs && InstallOk(w.disk, w.server, w.installs[p].(at := at))
    requires forall q | q in w.installs && q != p ::
               Attempt(at).None? || Attempt(w.installs[q].at) != Attempt(at)
    ensures Inv(MoveInstall(w, p, at))
  {
  }

  lemma EndInstallKeeps(w: World, p: nat)
    requires Inv(w)
    ensures Inv(EndInstall(w, p))
  {
  }

  lemma MoveCustodianKeeps(w: World, p: nat, at: Custody)
    requires Inv(w) && p in w.custodians && CustodyOk(w.disk, w.server, at)
    ensures Inv(MoveCustodian(w, p, at))
  {
  }

  lemma EndCustodianKeeps(w: World, p: nat)
    requires Inv(w)
    ensures Inv(EndCustodian(w, p))
  {
  }

  // ----- Steps in which a process and a store change together

  lemma NewFileStores(d: Disk, s: Server, owner: Session)
    requires StoresInv(d, s) && d.receipt.None?
    ensures StoresInv(NewFile(d, owner), s) && Grows(d, s, NewFile(d, owner), s)
    ensures d.made !in d.files && d.made !in s.grants
  {
    assert d.made !in d.files && d.made !in d.creators;
  }

  lemma CreateIntentKeeps(w: World, p: nat)
    requires Inv(w) && p in w.installs && w.installs[p].at.NoIntent? && w.disk.receipt.None?
    ensures Inv(MoveInstall(w, p, Created(w.disk.made)).(disk := NewFile(w.disk, w.installs[p].owner)))
  {
    var k, e := w.disk.made, NewFile(w.disk, w.installs[p].owner);
    NewFileStores(w.disk, w.server, w.installs[p].owner);
    forall q | q in w.installs
      ensures Undisturbed(e, w.server, w.installs[q].at) && Attempt(w.installs[q].at) != Some(k)
    {
      assert InstallOk(w.disk, w.server, w.installs[q]);
    }
    StoresGrow(w, e, w.server);
    MoveInstallKeeps(w.(disk := e), p, Created(k));
  }

  /** An attempt writes its own file, in which it names itself. */
  lemma WriteFileKeeps(w: World, p: nat, intent: Intent, at: Install)
    requires Inv(w) && p in w.installs
    requires (w.installs[p].at.Created? && at == Recorded(w.installs[p].at.k))
          || (w.installs[p].at.Issued? && at == Noted(w.installs[p].at.k))
    requires intent.creator == w.installs[p].owner && intent.secret == at.k
    ensures Inv(MoveInstall(w, p, at).(disk := w.disk.(files := w.disk.files[at.k := Some(intent)])))
  {
    var d, s := w.disk, w.server;
    var e := d.(files := d.files[at.k := Some(intent)]);
    assert InstallOk(d, s, w.installs[p]);
    assert StoresInv(e, s);
    var v := MoveInstall(w, p, at).(disk := e);
    CustodiansGrow(d, s, e, s, w.custodians);
    forall q | q in v.installs ensures InstallOk(e, s, v.installs[q]) {
      if q != p {
        assert InstallOk(d, s, w.installs[q]);
        InstallGrows(d, s, e, s, w.installs[q]);
      }
    }
  }

  lemma RequestGrantKeeps(w: World, p: nat, grant: Grant)
    requires Inv(w) && p in w.installs && w.installs[p].at.Recorded? && grant.creator == w.installs[p].owner
    requires grant.creator in w.server.deleted ==> grant.state.Dead?
    ensures var k := w.installs[p].at.k;
            Inv(MoveInstall(w, p, Requested(k)).(server := w.server.(grants := w.server.grants[k := grant])))
  {
    var d, s, k := w.disk, w.server, w.installs[p].at.k;
    var t := s.(grants := s.grants[k := grant]);
    assert InstallOk(d, s, w.installs[p]);
    assert StoresInv(d, t);
    var v := MoveInstall(w, p, Requested(k)).(server := t);
    CustodiansGrow(d, s, d, t, w.custodians);
    forall q | q in v.installs ensures InstallOk(d, t, v.installs[q]) {
      if q != p {
        assert InstallOk(d, s, w.installs[q]);
        InstallGrows(d, s, d, t, w.installs[q]);
      }
    }
  }

  lemma UnlinkKeeps(w: World, p: nat)
    requires Inv(w) && p in w.custodians && w.custodians[p].at.Matched?
    requires w.disk.receipt == Some(w.custodians[p].at.file)
    ensures Inv(EndCustodian(w, p).(disk := w.disk.(receipt := None, unlinked := w.disk.unlinked + 1)))
  {
    assert CustodyOk(w.disk, w.server, w.custodians[p].at);
    var e := w.disk.(receipt := None, unlinked := w.disk.unlinked + 1);
    assert forall q | q in w.installs :: InstallOk(w.disk, w.server, w.installs[q]);
    StoresGrow(w, e, w.server);
    EndCustodianKeeps(w.(disk := e), p);
  }

  // ----- Every action keeps the invariant and releases only what is revoked

  ghost predicate Safe(w: World, v: World) {
    Inv(v) && ReleasesOnlyRevoked(w.disk, w.server, v.disk)
  }

  lemma InstallChecksSafe(w: World, p: nat)
    requires Inv(w) && p in w.installs
    ensures Safe(w, SawNoEntry(w, p)) && Safe(w, SawNoIntent(w, p))
  {
    EndInstallKeeps(w, p);
    MoveInstallKeeps(w, p, NoEntry);
    MoveInstallKeeps(w, p, NoIntent);
  }

  lemma GrantReceptionSafe(w: World, p: nat)
    requires Inv(w) && p in w.installs
    ensures Safe(w, ReceivedGrant(w, p)) && Safe(w, Raised(w, p))
  {
    assert InstallOk(w.disk, w.server, w.installs[p]);
    match w.installs[p].at
    case Requested(k) => MoveInstallKeeps(w, p, Issued(k));
    case Noted(k) => MoveInstallKeeps(w, p, Failing(k));
    case Stored(k) => MoveInstallKeeps(w, p, Failing(k));
    case _ =>
  }

  lemma IntentCreationSafe(w: World, p: nat)
    requires Inv(w) && p in w.installs
    ensures Safe(w, CreatedIntent(w, p))
  {
    if w.installs[p].at.NoIntent? {
      if w.disk.receipt.None? { CreateIntentKeeps(w, p); } else { EndInstallKeeps(w, p); }
    }
  }

  lemma IntentWritesSafe(w: World, p: nat)
    requires Inv(w) && p in w.installs
    ensures Safe(w, WroteIntent(w, p)) && Safe(w, NotedGrant(w, p))
  {
    var owner := w.installs[p].owner;
    match w.installs[p].at
    case Created(k) => WriteFileKeeps(w, p, Intent(owner, k, None), Recorded(k));
    case Issued(k) => WriteFileKeeps(w, p, Intent(owner, k, Some(k)), Noted(k));
    case _ =>
  }

  lemma GrantRequestSafe(w: World, p: nat)
    requires Inv(w) && p in w.installs
    ensures Safe(w, RequestedGrant(w, p))
  {
    var owner := w.installs[p].owner;
    if w.installs[p].at.Recorded? {
      RequestGrantKeeps(w, p, Grant(owner, if owner in w.server.deleted then Dead(false) else Pending));
    }
  }

  lemma SecretStorageSafe(w: World, p: nat, raised: bool)
    requires Inv(w) && p in w.installs
    ensures Safe(w, StoredSecret(w, p, raised))
  {
    assert InstallOk(w.disk, w.server, w.installs[p]);
    match w.installs[p].at
    case Noted(k) =>
      SecretsKeep(w, w.disk.secrets + {k});
      var u := w.(disk := w.disk.(secrets := w.disk.secrets + {k}));
      MoveInstallKeeps(u, p, if raised then Failing(k) else Stored(k));
    case _ =>
  }

  lemma EntryInstallationSafe(w: World, p: nat, raised: bool)
    requires Inv(w) && p in w.installs
    ensures Safe(w, InstalledEntry(w, p, raised))
  {
    assert InstallOk(w.disk, w.server, w.installs[p]);
    match w.installs[p].at
    case Stored(k) =>
      var u := if w.disk.entry.Some? then w else w.(disk := w.disk.(entry := Some(Entry(k, k))));
      EntryKeeps(w, Some(Entry(k, k)));
      MoveInstallKeeps(u, p, Failing(k));
      EndInstallKeeps(u, p);
    case _ =>
  }

  lemma OwnRevocationSafe(w: World, p: nat, reply: Reply)
    requires Inv(w) && p in w.installs
    ensures Safe(w, OwnRevoked(w, p, reply))
  {
    assert InstallOk(w.disk, w.server, w.installs[p]);
    match w.installs[p].at
    case Failing(k) =>
      var t := GrantDead(w.server, k);
      ServerKeeps(w, t);
      ServerKeeps(w, GrantConfirmed(t, k));
      if reply.Lost? { EndInstallKeeps(w.(server := t), p); }
      else { MoveInstallKeeps(w.(server := GrantConfirmed(t, k)), p, RevokedOwn(k)); }
    case _ =>
  }

  lemma OwnSecretDropSafe(w: World, p: nat)
    requires Inv(w) && p in w.installs
    ensures Safe(w, OwnSecretDropped(w, p))
  {
    assert InstallOk(w.disk, w.server, w.installs[p]);
    match w.installs[p].at
    case RevokedOwn(k) =>
      SecretsKeep(w, w.disk.secrets - {k});
      EndInstallKeeps(w.(disk := w.disk.(secrets := w.disk.secrets - {k})), p);
    case _ =>
  }

  lemma GrantRevocationSafe(w: World, p: nat, reply: Reply)
    requires Inv(w) && p in w.custodians
    ensures Safe(w, GrantRevoked(w, p, reply))
  {
    assert CustodyOk(w.disk, w.server, w.custodians[p].at);
    match w.custodians[p].at
    case Planned(e, removing) =>
      var t := GrantDead(w.server, e.grant);
      ServerKeeps(w, t);
      ServerKeeps(w, GrantConfirmed(t, e.grant));
      if reply.Lost? { EndCustodianKeeps(w.(server := t), p); }
      else { MoveCustodianKeeps(w.(server := GrantConfirmed(t, e.grant)), p, Revoked(e, removing)); }
    case _ =>
  }

  lemma EntryRemovalSafe(w: World, p: nat, raised: bool)
    requires Inv(w) && p in w.custodians
    ensures Safe(w, EntryRemoved(w, p, raised))
  {
    assert CustodyOk(w.disk, w.server, w.custodians[p].at);
    match w.custodians[p].at
    case Revoked(e, removing) =>
      EntryKeeps(w, None);
      EndCustodianKeeps(w, p);
      var u := if removing then w.(disk := w.disk.(entry := None)) else w;
      EndCustodianKeeps(u, p);
      MoveCustodianKeeps(u, p, Removed(e));
    case _ =>
  }

  lemma IntentReadSafe(w: World, p: nat)
    requires Inv(w) && p in w.custodians
    ensures Safe(w, IntentRead(w, p))
  {
    assert CustodyOk(w.disk, w.server, w.custodians[p].at);
    match w.custodians[p].at
    case Removed(e) =>
      if w.disk.receipt.None? {
        MoveCustodianKeeps(w, p, Unrecorded(e.secret));
      } else {
        EndCustodianKeeps(w, p);
        MoveCustodianKeeps(w, p, Entering);
      }
    case _ =>
  }

  lemma SecretDropSafe(w: World, p: nat)
    requires Inv(w) && p in w.custodians
    ensures Safe(w, SecretDropped(w, p))
  {
    assert CustodyOk(w.disk, w.server, w.custodians[p].at);
    match w.custodians[p].at
    case Unrecorded(k) =>
      SecretsKeep(w, w.disk.secrets - {k});
      EndCustodianKeeps(w.(disk := w.disk.(secrets := w.disk.secrets - {k})), p);
    case _ =>
  }

  lemma EntryCheckSafe(w: World, p: nat)
    requires Inv(w) && p in w.custodians
    ensures Safe(w, SawNotInstalled(w, p))
  {
    EndCustodianKeeps(w, p);
    MoveCustodianKeeps(w, p, NotInstalled);
  }

  lemma IntentOpeningSafe(w: World, p: nat)
    requires Inv(w) && p in w.custodians
    ensures Safe(w, IntentOpened(w, p))
  {
    EndCustodianKeeps(w, p);
    var i := IntentAtPath(w.disk);
    if w.disk.receipt.Some? && i.Some? {
      MoveCustodianKeeps(w, p, Opened(w.disk.receipt.value, i.value));
    }
  }

  lemma CreatorDeletionSafe(w: World, p: nat, reply: Reply)
    requires Inv(w) && p in w.custodians
    ensures Safe(w, CreatorDeleted(w, p, reply))
  {
    assert CustodyOk(w.disk, w.server, w.custodians[p].at);
    match w.custodians[p].at
    case Opened(file, intent) =>
      var t := SessionDeleted(w.server, intent.creator);
      ServerKeeps(w, t);
      ServerKeeps(w, SessionConfirmed(t, intent.creator));
      if reply.Lost? { EndCustodianKeeps(w.(server := t), p); }
      else { MoveCustodianKeeps(w.(server := SessionConfirmed(t, intent.creator)), p, Confirmed(file, intent)); }
    case _ =>
  }

  lemma IntentSecretDropSafe(w: World, p: nat)
    requires Inv(w) && p in w.custodians
    ensures Safe(w, IntentSecretDropped(w, p)) && Safe(w, FileMatched(w, p))
  {
    assert CustodyOk(w.disk, w.server, w.custodians[p].at);
    match w.custodians[p].at
    case Confirmed(file, intent) =>
      SecretsKeep(w, w.disk.secrets - {intent.secret});
      var u := w.(disk := w.disk.(secrets := w.disk.secrets - {intent.secret}));
      MoveCustodianKeeps(u, p, Cleared(file));
    case Cleared(file) => MoveCustodianKeeps(w, p, Matched(file));
    case _ =>
  }

  /** Once the session behind the file at the path is deleted, no grant lives. */
  lemma RecoveredLeavesNone(d: Disk, s: Server, file: nat)
    requires StoresInv(d, s) && Recovered(d, s, file) && d.receipt in {None, Some(file)}
    ensures forall g :: !PossiblyActive(s, g)
  {
    forall g ensures !PossiblyActive(s, g) {
      if g in s.grants {
        assert g in d.creators;
      }
    }
  }

  lemma UnlinkSafe(w: World, p: nat)
    requires Inv(w) && p in w.custodians && Guarded(w, Unlink(p))
    ensures Safe(w, Unlinked(w, p))
  {
    if w.custodians[p].at.Matched? {
      assert CustodyOk(w.disk, w.server, w.custodians[p].at);
      RecoveredLeavesNone(w.disk, w.server, w.custodians[p].at.file);
      if w.disk.receipt.None? {
        EndCustodianKeeps(w, p);
      } else {
        UnlinkKeeps(w, p);
      }
    }
  }

  lemma InstallStepSafe(w: World, a: Action)
    requires Inv(w) && OfInstall(a) && a.pid in w.installs
    ensures Safe(w, InstallStep(w, a))
  {
    match a
    case SeeNoEntry(p) => InstallChecksSafe(w, p);
    case SeeNoIntent(p) => InstallChecksSafe(w, p);
    case CreateIntent(p) => IntentCreationSafe(w, p);
    case WriteIntent(p) => IntentWritesSafe(w, p);
    case RequestGrant(p) => GrantRequestSafe(w, p);
    case ReceiveGrant(p) => GrantReceptionSafe(w, p);
    case NoteGrant(p) => IntentWritesSafe(w, p);
    case PutSecret(p, raised) => SecretStorageSafe(w, p, raised);
    case InstallEntry(p, raised) => EntryInstallationSafe(w, p, raised);
    case Raise(p) => GrantReceptionSafe(w, p);
    case RevokeOwn(p, reply) => OwnRevocationSafe(w, p, reply);
    case DropOwnSecret(p) => OwnSecretDropSafe(w, p);
  }

  lemma CustodyStepSafe(w: World, a: Action)
    requires Inv(w) && OfCustodian(a) && a.pid in w.custodians && Guarded(w, a)
    ensures Safe(w, CustodyStep(w, a))
  {
    match a
    case RevokeGrant(p, reply) => GrantRevocationSafe(w, p, reply);
    case RemoveEntry(p, raised) => EntryRemovalSafe(w, p, raised);
    case ReadIntent(p) => IntentReadSafe(w, p);
    case DropSecret(p) => SecretDropSafe(w, p);
    case SeeNotInstalled(p) => EntryCheckSafe(w, p);
    case OpenIntent(p) => IntentOpeningSafe(w, p);
    case DeleteSession(p, reply) => CreatorDeletionSafe(w, p, reply);
    case DropIntentSecret(p) => IntentSecretDropSafe(w, p);
    case MatchFile(p) => IntentSecretDropSafe(w, p);
    case Unlink(p) => UnlinkSafe(w, p);
  }

  lemma ServerEventsKeep(s: Server, g: int)
    requires ServerInv(s)
    ensures ServerInv(Landed(s, g)) && Landed(s, g).grants.Keys == s.grants.Keys
    ensures ServerInv(GrantDead(s, g)) && GrantDead(s, g).grants.Keys == s.grants.Keys
  {
  }

  lemma ServerEventSafe(w: World, g: int)
    requires Inv(w)
    ensures Safe(w, w.(server := Landed(w.server, g))) && Safe(w, w.(server := GrantDead(w.server, g)))
  {
    ServerEventsKeep(w.server, g);
    ServerKeeps(w, Landed(w.server, g));
    ServerKeeps(w, GrantDead(w.server, g));
  }

  lemma CrashSafe(w: World, p: nat)
    requires Inv(w)
    ensures Safe(w, EndInstall(w, p)) && Safe(w, EndCustodian(w, p))
  {
    EndInstallKeeps(w, p);
    EndCustodianKeeps(w, p);
  }

  lemma StartInstallSafe(w: World, p: nat, owner: Session)
    requires Inv(w)
    ensures Safe(w, Step(w, StartInstall(p, owner)))
  {
    assert InstallsInv(w.disk, w.server, Step(w, StartInstall(p, owner)).installs);
  }

  lemma StartCustodySafe(w: World, a: Action)
    requires Inv(w) && (a.StartDisconnect? || a.StartRecover?)
    ensures Safe(w, Step(w, a))
  {
    assert CustodiansInv(w.disk, w.server, Step(w, a).custodians);
  }

  lemma StartSafe(w: World, a: Action)
    requires Inv(w) && (a.StartInstall? || a.StartDisconnect? || a.StartRecover?)
    ensures Safe(w, Step(w, a))
  {
    if a.StartInstall? { StartInstallSafe(w, a.pid, a.owner); } else { StartCustodySafe(w, a); }
  }

  lemma ProcessSteps(w: World, a: Action)
    requires OfInstall(a) || OfCustodian(a)
    ensures Step(w, a) == if OfInstall(a) && a.pid in w.installs then InstallStep(w, a)
                          else if OfCustodian(a) && a.pid in w.custodians then CustodyStep(w, a) else w
  {
  }

  lemma ProcessSafe(w: World, a: Action)
    requires Inv(w) && (OfInstall(a) || OfCustodian(a)) && Guarded(w, a)
    ensures Safe(w, Step(w, a))
  {
    ProcessSteps(w, a);
    if OfInstall(a) && a.pid in w.installs {
      InstallStepSafe(w, a);
    } else if OfCustodian(a) && a.pid in w.custodians {
      CustodyStepSafe(w, a);
    }
  }

  lemma EnvironmentSteps(w: World, a: Action)
    requires a.Land? || a.Lapse? || a.CrashInstall? || a.CrashCustodian?
    ensures Step(w, a) == if a.Land? then w.(server := Landed(w.server, a.grant))
                          else if a.Lapse? then w.(server := GrantDead(w.server, a.grant))
                          else if a.CrashInstall? then EndInstall(w, a.pid) else EndCustodian(w, a.pid)
  {
  }

  lemma EnvironmentSafe(w: World, a: Action)
    requires Inv(w) && (a.Land? || a.Lapse? || a.CrashInstall? || a.CrashCustodian?)
    ensures Safe(w, Step(w, a))
  {
    EnvironmentSteps(w, a);
    if a.Land? || a.Lapse? {
      ServerEventSafe(w, a.grant);
    } else {
      CrashSafe(w, a.pid);
    }
  }

  /** An outside edit of the configuration releases what it likes; every other
      action is safe, if a removal finds the file that was compared. */
  lemma StepSafe(w: World, a: Action)
    requires Inv(w) && Guarded(w, a) && !a.EditConfig?
    ensures Safe(w, Step(w, a))
  {
    if a.StartInstall? || a.StartDisconnect? || a.StartRecover? {
      StartSafe(w, a);
    } else if a.Land? || a.Lapse? || a.CrashInstall? || a.CrashCustodian? {
      EnvironmentSafe(w, a);
    } else {
      ProcessSafe(w, a);
    }
  }

  lemma StepKeeps(w: World, a: Action)
    requires Inv(w) && Guarded(w, a)
    ensures Inv(Step(w, a))
  {
    if a.EditConfig? {
      EntryKeeps(w, a.edited);
    } else {
      StepSafe(w, a);
    }
  }

  lemma {:induction false} RunKeeps(w: World, actions: seq<Action>)
    requires Inv(w) && GuardedRun(w, actions)
    ensures Inv(Run(w, actions))
    decreases |actions|
  {
    if actions != [] {
      StepKeeps(w, actions[0]);
      RunKeeps(Step(w, actions[0]), actions[1..]);
    }
  }

  // ----- The main results, for every run from the start

  lemma IntentCovers(w: World)
    requires Inv(w)
    ensures Covered(w)
  {
    forall g | PossiblyActive(w.server, g)
      ensures IntentAtPath(w.disk).Some? && IntentAtPath(w.disk).value.creator == w.server.grants[g].creator
    {
      assert g in w.disk.creators;
    }
  }

  /** With any number of installs, recoveries and disconnects at once: as long as
      no recovery removes another file than the one it compared, every grant that
      is or may become active is covered by a durable intent that names its
      creator. */
  lemma IssuanceIsCrashSafe(actions: seq<Action>)
    requires GuardedRun(START, actions)
    ensures Covered(Run(START, actions))
  {
    RunKeeps(START, actions);
    IntentCovers(Run(START, actions));
  }

  /** And no action of the tool drops a secret, the installed entry or the intent
      before the grants behind it are confirmed revoked. */
  lemma CustodyOutlivesGrants(actions: seq<Action>, a: Action)
    requires GuardedRun(START, actions) && Guarded(Run(START, actions), a) && !a.EditConfig?
    ensures var w := Run(START, actions);
            ReleasesOnlyRevoked(w.disk, w.server, Step(w, a).disk)
  {
    RunKeeps(START, actions);
    StepSafe(Run(START, actions), a);
  }

  lemma UnlinkCovers(w: World, p: nat)
    requires Inv(w) && p in w.custodians && w.custodians[p].at.Matched?
    ensures Covered(Step(w, Unlink(p))) <==> Guarded(w, Unlink(p)) || forall g :: !PossiblyActive(w.server, g)
  {
    ProcessSteps(w, Unlink(p));
    var v := Unlinked(w, p);
    if Guarded(w, Unlink(p)) {
      UnlinkSafe(w, p);
      IntentCovers(v);
    } else {
      assert IntentAtPath(v.disk).None? && v.server == w.server;
      assert Covered(v) ==> forall g :: !PossiblyActive(v.server, g);
    }
  }

  /** The condition is exact: removing the file at the path leaves every possibly
      active grant covered if and only if it is the file that was compared, or
      none is there, or no grant is possibly active. */
  lemma UnlinkIsExact(actions: seq<Action>, p: nat)
    requires var w := Run(START, actions);
             GuardedRun(START, actions) && p in w.custodians && w.custodians[p].at.Matched?
    ensures var w := Run(START, actions);
            Covered(Step(w, Unlink(p))) <==> Guarded(w, Unlink(p)) || forall g :: !PossiblyActive(w.server, g)
  {
    RunKeeps(START, actions);
    UnlinkCovers(Run(START, actions), p);
  }

  // ----- Recoveries and disconnects one at a time meet the condition

  predicate WorksOn(at: Custody) { at.Opened? || at.Confirmed? || at.Cleared? || at.Matched? }

  /** The only recovery or disconnect works on the file at the path. */
  ghost predicate Alone(w: World) {
    && (forall p, q | p in w.custodians && q in w.custodians :: p == q)
    && (forall p | p in w.custodians && WorksOn(w.custodians[p].at) :: w.disk.receipt == Some(w.custodians[p].at.file))
  }

  lemma InstallStaysAlone(w: World, a: Action)
    requires Alone(w) && OfInstall(a) && a.pid in w.installs
    ensures Alone(InstallStep(w, a))
  {
    var v := InstallStep(w, a);
    assert v.custodians == w.custodians && (w.disk.receipt.Some? ==> v.disk.receipt == w.disk.receipt);
  }

  lemma CustodianStaysAlone(w: World, a: Action)
    requires Alone(w) && OfCustodian(a) && a.pid in w.custodians
    ensures Alone(CustodyStep(w, a)) && Guarded(w, a)
  {
    var v := CustodyStep(w, a);
    assert v.custodians.Keys <= w.custodians.Keys;
    assert a.Unlink? || v.disk.receipt == w.disk.receipt;
  }

  lemma StaysAlone(w: World, a: Action)
    requires Alone(w) && Serial(w, a)
    ensures Alone(Step(w, a)) && Guarded(w, a)
  {
    if OfInstall(a) || OfCustodian(a) {
      ProcessSteps(w, a);
      if OfInstall(a) && a.pid in w.installs {
        InstallStaysAlone(w, a);
      } else if OfCustodian(a) && a.pid in w.custodians {
        CustodianStaysAlone(w, a);
      }
    }
  }

  lemma {:induction false} AloneIsGuarded(w: World, actions: seq<Action>)
    requires Alone(w) && SerialRun(w, actions)
    ensures GuardedRun(w, actions)
    decreases |actions|
  {
    if actions != [] {
      StaysAlone(w, actions[0]);
      AloneIsGuarded(Step(w, actions[0]), actions[1..]);
    }
  }

  /** So with recoveries and disconnects one at a time, beside any number of
      installs, both results hold without further condition. */
  lemma SerialRunsAreGuarded(actions: seq<Action>)
    requires SerialRun(START, actions)
    ensures GuardedRun(START, actions)
  {
    AloneIsGuarded(START, actions);
  }
}
