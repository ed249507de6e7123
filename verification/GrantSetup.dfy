/** Guided setup, recovery and disconnect of a workflow grant, as a machine over
    their durable and remote effects. Four stores survive a crash: the entry in
    the client configuration, the intent file, the secret store and the grants
    at the server. Any number of installs, recoveries and disconnects may run at
    once; every process may stop between any two effects, and any reply may be
    lost.

    An install that wins the exclusive creation of the intent file is an attempt.
    Attempts are numbered, and the file, the secret reference and the grant that
    belong to an attempt carry its number, since each is freshly generated.

    Environment: a server that deletes a session deactivates the grants which
    that session created and creates no further one for it; a create request may
    take effect at any time until then. A configuration update is one step
    (ConfigApply proves that updates are serialised), and so is a write to the
    intent file. */
module GrantSetup {
  import opened Wrappers

  datatype Session = Session(origin: nat, user: nat, id: nat)

  datatype Intent = Intent(creator: Session, secret: int, grant: Option<int>)

  /** The grant and secret reference an entry, or the owner, names. Identifiers
      that no attempt generated are negative. */
  datatype Entry = Entry(grant: int, secret: int)

  datatype Disk = Disk(
    entry: Option<Entry>,                // the entry in the client configuration
    receipt: Option<nat>,                // the attempt whose intent file is at the path
    files: map<nat, Option<Intent>>,     // intent files by attempt, `None` while empty
    creators: map<nat, Session>,         // the login that ran each attempt
    secrets: set<int>,                   // attempts whose grant token is in the secret store
    made: nat, unlinked: nat)            // how many intent files were created and removed

  /** `Dead(landed)`: never created, or created and since deactivated. */
  datatype GrantState = Pending | Active | Dead(landed: bool)
  datatype Grant = Grant(creator: Session, state: GrantState)

  datatype Server = Server(
    grants: map<int, Grant>,             // one per create request
    deleted: set<Session>,               // sessions the server deleted
    confirmedGrants: set<int>,           // grants whose revocation was confirmed to some process
    confirmedSessions: set<Session>,     // likewise for session deletions
    recoveries: nat)                     // confirmed session deletions

  /** Where an install stands. */
  datatype Install =
    | Begun | NoEntry | NoIntent
    | Created(k: nat) | Recorded(k: nat) | Requested(k: nat) | Issued(k: nat) | Noted(k: nat) | Stored(k: nat)
    | Failing(k: nat) | RevokedOwn(k: nat)

  /** Where a recovery or disconnect stands. */
  datatype Custody =
    | Planned(entry: Entry, removing: bool) | Revoked(entry: Entry, removing: bool)
    | Removed(entry: Entry) | Unrecorded(secret: int)
    | Entering | NotInstalled
    | Opened(file: nat, intent: Intent) | Confirmed(file: nat, intent: Intent)
    | Cleared(file: nat) | Matched(file: nat)

  datatype Process<P> = Process(owner: Session, at: P)

  datatype World = World(
    disk: Disk, server: Server, installs: map<nat, Process<Install>>, custodians: map<nat, Process<Custody>>)

  const START := World(Disk(None, None, map[], map[], {}, 0, 0), Server(map[], {}, {}, {}, 0), map[], map[])

  /** How a remote request that took effect ends for its sender. A request
      without effect, and any other refusal or crash, is a crash. */
  datatype Reply = Reached | Lost

  datatype Action =
    // an install
    | StartInstall(pid: nat, owner: Session)
    | SeeNoEntry(pid: nat) | SeeNoIntent(pid: nat)
    | CreateIntent(pid: nat) | WriteIntent(pid: nat)
    | RequestGrant(pid: nat) | ReceiveGrant(pid: nat) | NoteGrant(pid: nat)
    | PutSecret(pid: nat, raised: bool) | InstallEntry(pid: nat, raised: bool) | Raise(pid: nat)
    | RevokeOwn(pid: nat, reply: Reply) | DropOwnSecret(pid: nat)
    | CrashInstall(pid: nat)
    // a disconnect, which ends in a recovery, and a recovery
    | StartDisconnect(pid: nat, owner: Session, entry: Entry)
    | RevokeGrant(pid: nat, reply: Reply) | RemoveEntry(pid: nat, raised: bool)
    | ReadIntent(pid: nat) | DropSecret(pid: nat)
    | StartRecover(pid: nat, owner: Session)
    | SeeNotInstalled(pid: nat) | OpenIntent(pid: nat)
    | DeleteSession(pid: nat, reply: Reply) | DropIntentSecret(pid: nat)
    | MatchFile(pid: nat) | Unlink(pid: nat)
    | CrashCustodian(pid: nat)
    // the environment
    | Land(grant: int) | Lapse(grant: int) | EditConfig(edited: Option<Entry>)

  // ----- Effects

  /** What the intent file at the path says; an empty file says nothing valid. */
  function IntentAtPath(d: Disk): Option<Intent> {
    if d.receipt.Some? && d.receipt.value in d.files then d.files[d.receipt.value] else None
  }

  function Killed(g: Grant): Grant {
    g.(state := Dead(g.state == Active || g.state == Dead(true)))
  }

  function Landed(s: Server, g: int): Server {
    if g in s.grants && s.grants[g].state.Pending? then s.(grants := s.grants[g := s.grants[g].(state := Active)]) else s
  }

  function GrantDead(s: Server, g: int): Server {
    if g in s.grants then s.(grants := s.grants[g := Killed(s.grants[g])]) else s
  }

  function SessionDeleted(s: Server, creator: Session): Server {
    s.(deleted := s.deleted + {creator},
       grants := map g | g in s.grants :: if s.grants[g].creator == creator then Killed(s.grants[g]) else s.grants[g])
  }

  function MoveInstall(w: World, pid: nat, at: Install): World
    requires pid in w.installs
  {
    w.(installs := w.installs[pid := w.installs[pid].(at := at)])
  }

  function EndInstall(w: World, pid: nat): World {
    w.(installs := w.installs - {pid})
  }

  function MoveCustodian(w: World, pid: nat, at: Custody): World
    requires pid in w.custodians
  {
    w.(custodians := w.custodians[pid := w.custodians[pid].(at := at)])
  }

  function EndCustodian(w: World, pid: nat): World {
    w.(custodians := w.custodians - {pid})
  }

  // ----- The steps of an install. A step whose process is elsewhere changes nothing.

  function SawNoEntry(w: World, p: nat): World
    requires p in w.installs
  {
    if !w.installs[p].at.Begun? then w
    else if w.disk.entry.None? then MoveInstall(w, p, NoEntry) else EndInstall(w, p)
  }

  function SawNoIntent(w: World, p: nat): World
    requires p in w.installs
  {
    if !w.installs[p].at.NoEntry? then w
    else if w.disk.receipt.None? then MoveInstall(w, p, NoIntent) else EndInstall(w, p)
  }

  /** Exclusive creation: the file exists from here on, empty at first. */
  function CreatedIntent(w: World, p: nat): World
    requires p in w.installs
  {
    if !w.installs[p].at.NoIntent? then w
    else if w.disk.receipt.Some? then EndInstall(w, p)
    else MoveInstall(w, p, Created(w.disk.made)).(disk := NewFile(w.disk, w.installs[p].owner))
  }

  function NewFile(d: Disk, owner: Session): Disk {
    d.(receipt := Some(d.made), files := d.files[d.made := None], creators := d.creators[d.made := owner],
       made := d.made + 1)
  }

  function WroteIntent(w: World, p: nat): World
    requires p in w.installs
  {
    match w.installs[p].at
    case Created(k) =>
      MoveInstall(w, p, Recorded(k)).(
        disk := w.disk.(files := w.disk.files[k := Some(Intent(w.installs[p].owner, k, None))]))
    case _ => w
  }

  function RequestedGrant(w: World, p: nat): World
    requires p in w.installs
  {
    var owner, s := w.installs[p].owner, w.server;
    match w.installs[p].at
    case Recorded(k) =>
      MoveInstall(w, p, Requested(k)).(
        server := s.(grants := s.grants[k := Grant(owner, if owner in s.deleted then Dead(false) else Pending)]))
    case _ => w
  }

  function ReceivedGrant(w: World, p: nat): World
    requires p in w.installs
  {
    match w.installs[p].at
    case Requested(k) =>
      if k in w.server.grants && w.server.grants[k].state in {Active, Dead(true)} then MoveInstall(w, p, Issued(k)) else w
    case _ => w
  }

  /** Through the descriptor that created the file, wherever the path leads now. */
  function NotedGrant(w: World, p: nat): World
    requires p in w.installs
  {
    match w.installs[p].at
    case Issued(k) =>
      MoveInstall(w, p, Noted(k)).(
        disk := w.disk.(files := w.disk.files[k := Some(Intent(w.installs[p].owner, k, Some(k)))]))
    case _ => w
  }

  function StoredSecret(w: World, p: nat, raised: bool): World
    requires p in w.installs
  {
    match w.installs[p].at
    case Noted(k) =>
      MoveInstall(w.(disk := w.disk.(secrets := w.disk.secrets + {k})), p, if raised then Failing(k) else Stored(k))
    case _ => w
  }

  function InstalledEntry(w: World, p: nat, raised: bool): World
    requires p in w.installs
  {
    match w.installs[p].at
    case Stored(k) =>
      if w.disk.entry.Some? then MoveInstall(w, p, Failing(k))
      else
        var u := w.(disk := w.disk.(entry := Some(Entry(k, k))));
        if raised then MoveInstall(u, p, Failing(k)) else EndInstall(u, p)
    case _ => w
  }

  function Raised(w: World, p: nat): World
    requires p in w.installs
  {
    match w.installs[p].at
    case Noted(k) => MoveInstall(w, p, Failing(k))
    case Stored(k) => MoveInstall(w, p, Failing(k))
    case _ => w
  }

  function GrantConfirmed(s: Server, g: int): Server {
    if g in s.grants then s.(confirmedGrants := s.confirmedGrants + {g}) else s
  }

  function OwnRevoked(w: World, p: nat, reply: Reply): World
    requires p in w.installs
  {
    match w.installs[p].at
    case Failing(k) =>
      var t := GrantDead(w.server, k);
      if reply.Lost? then EndInstall(w.(server := t), p)
      else MoveInstall(w.(server := GrantConfirmed(t, k)), p, RevokedOwn(k))
    case _ => w
  }

  function OwnSecretDropped(w: World, p: nat): World
    requires p in w.installs
  {
    match w.installs[p].at
    case RevokedOwn(k) => EndInstall(w.(disk := w.disk.(secrets := w.disk.secrets - {k})), p)
    case _ => w
  }

  // ----- The steps of a disconnect and of a recovery

  function GrantRevoked(w: World, p: nat, reply: Reply): World
    requires p in w.custodians
  {
    match w.custodians[p].at
    case Planned(e, removing) =>
      var t := GrantDead(w.server, e.grant);
      if reply.Lost? then EndCustodian(w.(server := t), p)
      else MoveCustodian(w.(server := GrantConfirmed(t, e.grant)), p, Revoked(e, removing))
    case _ => w
  }

  function EntryRemoved(w: World, p: nat, raised: bool): World
    requires p in w.custodians
  {
    match w.custodians[p].at
    case Revoked(e, removing) =>
      if removing && w.disk.entry != Some(e) then EndCustodian(w, p)
      else
        var u := if removing then w.(disk := w.disk.(entry := None)) else w;
        if raised then EndCustodian(u, p) else MoveCustodian(u, p, Removed(e))
    case _ => w
  }

  function IntentRead(w: World, p: nat): World
    requires p in w.custodians
  {
    var i := IntentAtPath(w.disk);
    match w.custodians[p].at
    case Removed(e) =>
      if w.disk.receipt.None? then MoveCustodian(w, p, Unrecorded(e.secret))
      else if i.Some? && i.value.grant == Some(e.grant) && i.value.secret == e.secret
      then MoveCustodian(w, p, Entering)
      else EndCustodian(w, p)
    case _ => w
  }

  function SecretDropped(w: World, p: nat): World
    requires p in w.custodians
  {
    match w.custodians[p].at
    case Unrecorded(k) => EndCustodian(w.(disk := w.disk.(secrets := w.disk.secrets - {k})), p)
    case _ => w
  }

  function SawNotInstalled(w: World, p: nat): World
    requires p in w.custodians
  {
    if !w.custodians[p].at.Entering? then w
    else if w.disk.entry.None? then MoveCustodian(w, p, NotInstalled) else EndCustodian(w, p)
  }

  /** Only the same user's record, made at the same server, is acted on. */
  function IntentOpened(w: World, p: nat): World
    requires p in w.custodians
  {
    var owner, i := w.custodians[p].owner, IntentAtPath(w.disk);
    if !w.custodians[p].at.NotInstalled? then w
    else if w.disk.receipt.Some? && i.Some?
            && i.value.creator.origin == owner.origin && i.value.creator.user == owner.user
    then MoveCustodian(w, p, Opened(w.disk.receipt.value, i.value))
    else EndCustodian(w, p)
  }

  function SessionConfirmed(s: Server, creator: Session): Server {
    s.(confirmedSessions := s.confirmedSessions + {creator}, recoveries := s.recoveries + 1)
  }

  function CreatorDeleted(w: World, p: nat, reply: Reply): World
    requires p in w.custodians
  {
    match w.custodians[p].at
    case Opened(file, intent) =>
      var t := SessionDeleted(w.server, intent.creator);
      if reply.Lost? then EndCustodian(w.(server := t), p)
      else MoveCustodian(w.(server := SessionConfirmed(t, intent.creator)), p, Confirmed(file, intent))
    case _ => w
  }

  function IntentSecretDropped(w: World, p: nat): World
    requires p in w.custodians
  {
    match w.custodians[p].at
    case Confirmed(file, intent) =>
      MoveCustodian(w.(disk := w.disk.(secrets := w.disk.secrets - {intent.secret})), p, Cleared(file))
    case _ => w
  }

  function FileMatched(w: World, p: nat): World
    requires p in w.custodians
  {
    match w.custodians[p].at
    case Cleared(file) =>
      if w.disk.receipt == Some(file) then MoveCustodian(w, p, Matched(file)) else EndCustodian(w, p)
    case _ => w
  }

  /** Removes whatever file is at the path now. */
  function Unlinked(w: World, p: nat): World
    requires p in w.custodians
  {
    if !w.custodians[p].at.Matched? then w
    else if w.disk.receipt.None? then EndCustodian(w, p)
    else EndCustodian(w.(disk := w.disk.(receipt := None, unlinked := w.disk.unlinked + 1)), p)
  }

  /** Planning a disconnect refuses another entry than the one it is to remove.
      The owner names no identifier before it has been generated. */
  predicate Plannable(w: World, entry: Entry) {
    && (entry.grant < 0 || entry.grant in w.server.grants)
    && entry.secret < w.disk.made
    && (w.disk.entry.None? || w.disk.entry == Some(entry))
  }

  function Step(w: World, a: Action): World {
    match a
    case StartInstall(p, owner) =>
      if p in w.installs then w else w.(installs := w.installs[p := Process(owner, Begun)])
    case CrashInstall(p) => EndInstall(w, p)
    case StartDisconnect(p, owner, entry) =>
      if p in w.custodians || !Plannable(w, entry) then w
      else w.(custodians := w.custodians[p := Process(owner, Planned(entry, w.disk.entry.Some?))])
    case StartRecover(p, owner) =>
      if p in w.custodians then w else w.(custodians := w.custodians[p := Process(owner, Entering)])
    case CrashCustodian(p) => EndCustodian(w, p)
    case Land(g) => w.(server := Landed(w.server, g))
    case Lapse(g) => w.(server := GrantDead(w.server, g))
    case EditConfig(edited) => w.(disk := w.disk.(entry := edited))
    case _ =>
      if OfInstall(a) && a.pid in w.installs then InstallStep(w, a)
      else if OfCustodian(a) && a.pid in w.custodians then CustodyStep(w, a)
      else w
  }

  predicate OfInstall(a: Action) {
    a.SeeNoEntry? || a.SeeNoIntent? || a.CreateIntent? || a.WriteIntent? || a.RequestGrant? || a.ReceiveGrant?
    || a.NoteGrant? || a.PutSecret? || a.InstallEntry? || a.Raise? || a.RevokeOwn? || a.DropOwnSecret?
  }

  function InstallStep(w: World, a: Action): World
    requires OfInstall(a) && a.pid in w.installs
  {
    match a
    case SeeNoEntry(p) => SawNoEntry(w, p)
    case SeeNoIntent(p) => SawNoIntent(w, p)
    case CreateIntent(p) => CreatedIntent(w, p)
    case WriteIntent(p) => WroteIntent(w, p)
    case RequestGrant(p) => RequestedGrant(w, p)
    case ReceiveGrant(p) => ReceivedGrant(w, p)
    case NoteGrant(p) => NotedGrant(w, p)
    case PutSecret(p, raised) => StoredSecret(w, p, raised)
    case InstallEntry(p, raised) => InstalledEntry(w, p, raised)
    case Raise(p) => Raised(w, p)
    case RevokeOwn(p, reply) => OwnRevoked(w, p, reply)
    case DropOwnSecret(p) => OwnSecretDropped(w, p)
  }

  predicate OfCustodian(a: Action) {
    a.RevokeGrant? || a.RemoveEntry? || a.ReadIntent? || a.DropSecret? || a.SeeNotInstalled? || a.OpenIntent?
    || a.DeleteSession? || a.DropIntentSecret? || a.MatchFile? || a.Unlink?
  }

  function CustodyStep(w: World, a: Action): World
    requires OfCustodian(a) && a.pid in w.custodians
  {
    match a
    case RevokeGrant(p, reply) => GrantRevoked(w, p, reply)
    case RemoveEntry(p, raised) => EntryRemoved(w, p, raised)
    case ReadIntent(p) => IntentRead(w, p)
    case DropSecret(p) => SecretDropped(w, p)
    case SeeNotInstalled(p) => SawNotInstalled(w, p)
    case OpenIntent(p) => IntentOpened(w, p)
    case DeleteSession(p, reply) => CreatorDeleted(w, p, reply)
    case DropIntentSecret(p) => IntentSecretDropped(w, p)
    case MatchFile(p) => FileMatched(w, p)
    case Unlink(p) => Unlinked(w, p)
  }

  function Run(w: World, actions: seq<Action>): World
    decreases |actions|
  {
    if actions == [] then w else Run(Step(w, actions[0]), actions[1..])
  }

  /** A recovery that has compared the file at the path removes no other file. */
  predicate Guarded(w: World, a: Action) {
    a.Unlink? && a.pid in w.custodians && w.custodians[a.pid].at.Matched? ==>
      w.disk.receipt in {None, Some(w.custodians[a.pid].at.file)}
  }

  predicate GuardedRun(w: World, actions: seq<Action>)
    decreases |actions|
  {
    actions == [] || (Guarded(w, actions[0]) && GuardedRun(Step(w, actions[0]), actions[1..]))
  }

  /** The owner runs no two recoveries or disconnects at the same time. */
  predicate Serial(w: World, a: Action) {
    a.StartDisconnect? || a.StartRecover? ==> w.custodians == map[]
  }

  predicate SerialRun(w: World, actions: seq<Action>)
    decreases |actions|
  {
    actions == [] || (Serial(w, actions[0]) && SerialRun(Step(w, actions[0]), actions[1..]))
  }
}
