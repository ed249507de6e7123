/** Every run of the conversation controller. Operations suspend at an `await`
    and interleave freely, so a run is any sequence of events: an operation
    starting, the adapter settling one of the suspended operations (with any
    answer), the adapter calling a confirmation guard, or the clock advancing.

    Beside the controller's own state a world keeps the suspended tasks and a
    history that the controller does not have. */
module ConversationRuns {
  import opened Wrappers
  import opened ConversationValues
  import opened ConversationController

  datatype World = World(
    s: State,
    now: real,
    tasks: map<nat, Task>,       // suspended operations, by identifier
    next: nat,                   // the next unused identifier
    guards: map<nat, Task>,      // every confirmation whose guard the adapter may still call
    authorityStart: real,        // when the authority request behind `current` started
    origins: seq<Scope>,         // the scope each displayed message was sent or read under
    installed: multiset<nat>,    // reviews installed, by the candidate they send
    confirmed: multiset<nat>,    // candidates whose `confirm` was called
    calls: nat)                  // adapter calls and confirmations begun

  datatype Event =
    | Tick(elapsed: real)
    | Authorize | SettleAuthority(id: nat, authority: AuthorityReply)
    | Edit(value: Value)
    | Prepare | SettlePrepare(id: nat, candidate: PrepareReply)
    | Confirm | CallGuard(id: nat) | SettleConfirm(id: nat, result: ConfirmReply)
    | Read | SettleRead(id: nat, plaintext: ReadReply)
    | Clear | Observe

  const START := World(INITIAL, 0.0, map[], 0, map[], 0.0, [], multiset{}, multiset{}, 0)

  /** The world once the controller is in state `t`; a message that was added
      belongs to `scope`. */
  function Moved(w: World, t: State, scope: Scope): World {
    w.(s := t,
       origins := if |t.messages| > |w.s.messages| then w.origins + [scope]
                  else if |t.messages| < |w.s.messages| then [] else w.origins)
  }

  function Begin(w: World, r: (State, Option<Task>)): World {
    var v := Moved(w, r.0, map[]);
    match r.1
    case None => v
    case Some(task) =>
      v.(tasks := w.tasks[w.next := task], next := w.next + 1, calls := w.calls + 1,
         guards := if task.ConfirmTask? then w.guards[w.next := task] else w.guards,
         confirmed := if task.ConfirmTask? then w.confirmed + multiset{task.approved.handle} else w.confirmed)
  }

  function SettledAuthority(w: World, id: nat, reply: AuthorityReply): World
    requires id in w.tasks && w.tasks[id].AuthorityTask?
  {
    var task := w.tasks[id];
    var granted := task.ticket == w.s.revision && GrantsAuthority(reply, task.started, w.now);
    w.(s := AuthorizeFinished(w.s, w.now, task.ticket, task.started, reply), tasks := w.tasks - {id},
       authorityStart := if granted then task.started else w.authorityStart)
  }

  function SettledPrepare(w: World, id: nat, reply: PrepareReply): World
    requires id in w.tasks && w.tasks[id].PrepareTask?
  {
    var t := PrepareFinished(w.s, w.now, w.tasks[id], reply, id);
    Moved(w, t, map[]).(tasks := w.tasks - {id},
                        installed := if t.review.Some? then w.installed + multiset{id} else w.installed)
  }

  function SettledConfirm(w: World, id: nat, reply: ConfirmReply): World
    requires id in w.tasks && w.tasks[id].ConfirmTask?
  {
    var task := w.tasks[id];
    Moved(w, ConfirmFinished(w.s, w.now, task, reply), task.approved.scope).(tasks := w.tasks - {id})
  }

  function SettledRead(w: World, id: nat, reply: ReadReply): World
    requires id in w.tasks && w.tasks[id].ReadTask?
  {
    var task := w.tasks[id];
    Moved(w, ReadFinished(w.s, w.now, task, reply), task.scope).(tasks := w.tasks - {id})
  }

  /** An event that names no suitable task changes nothing. */
  function Step(w: World, e: Event): World {
    match e
    case Tick(elapsed) => if elapsed >= 0.0 then w.(now := w.now + elapsed) else w
    case Authorize => Begin(w, AuthorizeStarted(w.s, w.now))
    case SettleAuthority(id, reply) =>
      if id in w.tasks && w.tasks[id].AuthorityTask? then SettledAuthority(w, id, reply) else w
    case Edit(value) => Moved(w, Edited(w.s, w.now, value), map[])
    case Prepare => Begin(w, PrepareStarted(w.s, w.now))
    case SettlePrepare(id, reply) =>
      if id in w.tasks && w.tasks[id].PrepareTask? then SettledPrepare(w, id, reply) else w
    case Confirm => Begin(w, ConfirmStarted(w.s, w.now))
    case CallGuard(id) => if id in w.guards then Moved(w, Checked(w.s, w.now), map[]) else w
    case SettleConfirm(id, reply) =>
      if id in w.tasks && w.tasks[id].ConfirmTask? then SettledConfirm(w, id, reply) else w
    case Read => Begin(w, ReadStarted(w.s, w.now))
    case SettleRead(id, reply) =>
      if id in w.tasks && w.tasks[id].ReadTask? then SettledRead(w, id, reply) else w
    case Clear => Moved(w, Invalidated(w.s, true), map[])
    case Observe => Moved(w, Observed(w.s, w.now), map[])
  }

  function Run(w: World, events: seq<Event>): World
    decreases |events|
  {
    if events == [] then w else Run(Step(w, events[0]), events[1..])
  }

  // ----- What every reachable world satisfies

  /** Task `id` is one of those that may not overlap each other. */
  predicate InFlight(w: World, id: nat) {
    id in w.tasks && (w.tasks[id].PrepareTask? || w.tasks[id].ConfirmTask?)
  }

  /** `busy` is set exactly while one prepare or confirm is in flight. */
  ghost predicate BusyIsOneInFlight(w: World) {
    && (w.s.busy <==> exists id :: InFlight(w, id))
    && (forall i, j | InFlight(w, i) && InFlight(w, j) :: i == j)
  }

  /** A review on display fits the conversation, the draft and the revision. */
  ghost predicate ReviewCurrent(w: World) {
    w.s.review.Some? ==> !w.s.busy && ReviewMatches(w.s)
  }

  /** A task whose ticket is still the revision sees the conversation, and the
      draft, that it began with. */
  predicate Bound(s: State, now: real, task: Task) {
    && task.ticket <= s.revision
    && (task.ticket == s.revision ==>
          match task
          case AuthorityTask(_, started) => s.current.None? && started <= now
          case PrepareTask(_, scope, text) => s.current == Some(scope) && s.draft == Str(text)
          case ConfirmTask(_, approved) => s.current == Some(approved.scope) && s.draft == Str(approved.body)
          case ReadTask(_, scope) => s.current == Some(scope))
  }

  /** A guard can outlive its confirmation, so its draft may be gone. */
  predicate GuardBound(s: State, task: Task) {
    && task.ConfirmTask?
    && task.ticket <= s.revision
    && (task.ticket == s.revision ==> s.current == Some(task.approved.scope))
  }

  ghost predicate TasksBound(w: World) {
    && (forall id | id in w.tasks :: id < w.next && Bound(w.s, w.now, w.tasks[id]))
    && (forall id | id in w.guards :: id < w.next && GuardBound(w.s, w.guards[id]))
    && (forall i, j | i in w.tasks && j in w.tasks && w.tasks[i].AuthorityTask? && w.tasks[j].AuthorityTask? ::
          w.tasks[i].ticket == w.tasks[j].ticket ==> i == j)
  }

  /** Nothing of another conversation is on display, and nothing at all without one. */
  ghost predicate Isolated(w: World) {
    && |w.origins| == |w.s.messages|
    && (forall i | 0 <= i < |w.origins| :: w.s.current == Some(w.origins[i]))
    && (w.s.current.None? ==> w.s.messages == [] && w.s.draft == Str([]) && w.s.until == 0.0)
  }

  ghost predicate Bounded(w: World) {
    w.s.current.Some? ==>
      && ValidScope(w.s.current.value)
      && w.authorityStart <= w.now
      && w.s.until <= w.authorityStart + MAX_VALIDITY
  }

  /** Once an outcome is unknown nothing in flight can restore a conversation. */
  ghost predicate Latched(w: World) {
    w.s.uncertain.Some? ==>
      && w.s.current.None?
      && !w.s.busy
      && forall id | id in w.tasks :: w.tasks[id].ticket < w.s.revision
  }

  /** No candidate is confirmed twice, and none that was not reviewed. */
  ghost predicate SentOnce(w: World) {
    && (forall h :: w.confirmed[h] <= w.installed[h] <= 1)
    && (forall h | h in w.installed :: h < w.next && h !in w.tasks)
    && (w.s.review.Some? ==> w.s.review.value.handle in w.installed && w.s.review.value.handle !in w.confirmed)
  }

  ghost predicate Inv(w: World) {
    && TasksBound(w) && BusyIsOneInFlight(w) && ReviewCurrent(w)
    && Isolated(w) && Bounded(w) && Latched(w) && SentOnce(w)
  }

  // ----- Every event keeps it

  /** A step that leaves the prepares, the confirms and `busy` alone. */
  lemma BusyUnchanged(w: World, v: World)
    requires BusyIsOneInFlight(w) && v.s.busy == w.s.busy
    requires forall id :: InFlight(v, id) <==> InFlight(w, id)
    ensures BusyIsOneInFlight(v)
  {
    if w.s.busy {
      var id :| InFlight(w, id);
      assert InFlight(v, id);
    }
  }

  lemma BusyBegun(w: World, v: World, task: Task)
    requires BusyIsOneInFlight(w) && !w.s.busy && v.s.busy
    requires (task.PrepareTask? || task.ConfirmTask?) && v.tasks == w.tasks[w.next := task]
    ensures BusyIsOneInFlight(v)
  {
    assert InFlight(v, w.next);
    forall i | InFlight(v, i) ensures i == w.next {
      assert i == w.next || InFlight(w, i);
    }
  }

  lemma BusyEnded(w: World, v: World, id: nat)
    requires BusyIsOneInFlight(w) && InFlight(w, id) && !v.s.busy && v.tasks == w.tasks - {id}
    ensures BusyIsOneInFlight(v)
    ensures forall j | j in v.tasks :: v.tasks[j].AuthorityTask? || v.tasks[j].ReadTask?
  {
    assert forall j | j in v.tasks && InFlight(v, j) :: InFlight(w, j) && j != id;
  }

  lemma MovedKeeps(w: World, t: State)
    requires Inv(w)
    requires t in {Invalidated(w.s, true), Checked(w.s, w.now), Observed(w.s, w.now)}
    ensures Inv(Moved(w, t, map[]))
  {
    BusyUnchanged(w, Moved(w, t, map[]));
  }

  lemma EditKeeps(w: World, value: Value)
    requires Inv(w)
    ensures Inv(Step(w, Edit(value)))
  {
    BusyUnchanged(w, Step(w, Edit(value)));
  }

  lemma AuthorizeKeeps(w: World)
    requires Inv(w)
    ensures Inv(Begin(w, AuthorizeStarted(w.s, w.now)))
  {
    BusyUnchanged(w, Begin(w, AuthorizeStarted(w.s, w.now)));
  }

  lemma PrepareBegun(w: World)
    requires Inv(w) && IsLive(w.s, w.now) && PrepareStarted(w.s, w.now).1.Some?
    ensures Inv(Begin(w, PrepareStarted(w.s, w.now)))
  {
    var v := Begin(w, PrepareStarted(w.s, w.now));
    BusyBegun(w, v, PrepareStarted(w.s, w.now).1.value);
    assert TasksBound(v);
  }

  lemma PrepareKeeps(w: World)
    requires Inv(w)
    ensures Inv(Begin(w, PrepareStarted(w.s, w.now)))
  {
    if !IsLive(w.s, w.now) {
      MovedKeeps(w, Checked(w.s, w.now));
    } else if PrepareStarted(w.s, w.now).1.Some? {
      PrepareBegun(w);
    } else {
      BusyUnchanged(w, Begin(w, PrepareStarted(w.s, w.now)));
    }
  }

  lemma ConfirmKeeps(w: World)
    requires Inv(w)
    ensures Inv(Begin(w, ConfirmStarted(w.s, w.now)))
  {
    var v := Begin(w, ConfirmStarted(w.s, w.now));
    if !IsLive(w.s, w.now) {
      MovedKeeps(w, Checked(w.s, w.now));
    } else if ConfirmStarted(w.s, w.now).1.Some? {
      BusyBegun(w, v, ConfirmStarted(w.s, w.now).1.value);
      assert TasksBound(v);
    }
  }

  lemma ReadKeeps(w: World)
    requires Inv(w)
    ensures Inv(Begin(w, ReadStarted(w.s, w.now)))
  {
    if !IsLive(w.s, w.now) {
      MovedKeeps(w, Checked(w.s, w.now));
    } else {
      BusyUnchanged(w, Begin(w, ReadStarted(w.s, w.now)));
    }
  }

  lemma SettleAuthorityKeeps(w: World, id: nat, reply: AuthorityReply)
    requires Inv(w) && id in w.tasks && w.tasks[id].AuthorityTask?
    ensures Inv(SettledAuthority(w, id, reply))
  {
    BusyUnchanged(w, SettledAuthority(w, id, reply));
  }

  /** The world after task `id` is gone, before it has any other effect. */
  function Ended(w: World, id: nat): World
    requires id in w.tasks
  {
    w.(s := if InFlight(w, id) then w.s.(busy := false) else w.s, tasks := w.tasks - {id})
  }

  lemma EndedKeeps(w: World, id: nat)
    requires Inv(w) && id in w.tasks
    ensures Inv(Ended(w, id))
    ensures InFlight(w, id) ==>
              forall j | j in Ended(w, id).tasks :: w.tasks[j].AuthorityTask? || w.tasks[j].ReadTask?
  {
    if InFlight(w, id) {
      BusyEnded(w, Ended(w, id), id);
    } else {
      BusyUnchanged(w, Ended(w, id));
    }
  }

  /** A message of the present conversation appears; a sent draft is cleared. */
  lemma AppendKeeps(w: World, message: Message, draft: Value, scope: Scope)
    requires Inv(w) && w.s.current == Some(scope)
    requires || draft == w.s.draft
             || (w.s.review.None? && forall id | id in w.tasks :: w.tasks[id].AuthorityTask? || w.tasks[id].ReadTask?)
    ensures Inv(Moved(w, w.s.(messages := w.s.messages + [message], draft := draft), scope))
  {
    BusyUnchanged(w, Moved(w, w.s.(messages := w.s.messages + [message], draft := draft), scope));
  }

  /** A fresh review that fits the present conversation is installed. */
  lemma InstallKeeps(w: World, review: Review)
    requires Inv(w) && !w.s.busy && ReviewMatches(w.s.(review := Some(review)))
    requires review.handle < w.next && review.handle !in w.tasks && review.handle !in w.installed
    ensures Inv(w.(s := w.s.(review := Some(review)), installed := w.installed + multiset{review.handle}))
  {
    BusyUnchanged(w, w.(s := w.s.(review := Some(review)), installed := w.installed + multiset{review.handle}));
  }

  /** The unknown outcome of the one confirmation in flight is recorded. */
  lemma LatchKeeps(w: World, messageId: Text)
    requires Inv(w) && !w.s.busy
    ensures Inv(Moved(w, Invalidated(w.s, true).(uncertain := Some(messageId)), map[]))
  {
    BusyUnchanged(w, Moved(w, Invalidated(w.s, true).(uncertain := Some(messageId)), map[]));
  }

  lemma SettlePrepareKeeps(w: World, id: nat, reply: PrepareReply)
    requires Inv(w) && id in w.tasks && w.tasks[id].PrepareTask?
    ensures Inv(SettledPrepare(w, id, reply))
  {
    var u := Ended(w, id);
    EndedKeeps(w, id);
    var task, v := w.tasks[id], SettledPrepare(w, id, reply);
    if v.s.review.Some? {
      InstallKeeps(u, Review(task.scope, task.text, id, task.ticket));
    } else if reply.Candidate? && !IsLive(w.s, w.now) {
      MovedKeeps(u, Checked(u.s, u.now));
      assert v == Moved(u, Checked(u.s, u.now), map[]);
    } else {
      assert v == u;
    }
  }

  /** What a settled confirmation changes once it has ended. */
  lemma ConfirmSettles(w: World, id: nat, reply: ConfirmReply)
    requires id in w.tasks && w.tasks[id].ConfirmTask?
    ensures var u, task := Ended(w, id), w.tasks[id];
            SettledConfirm(w, id, reply) ==
            if reply.Settled? && task.ticket == u.s.revision && !IsLive(u.s, u.now) then Moved(u, Checked(u.s, u.now), map[])
            else if reply.Settled? && task.ticket == u.s.revision && reply.status.Some? then
              Moved(u, u.s.(messages := u.s.messages + [Outbound(task.approved.body, reply.status.value)], draft := Str([])),
                    task.approved.scope)
            else if reply.OutcomeUnknown? && reply.messageId.Str? && Uuid(reply.messageId.text) then
              Moved(u, Invalidated(u.s, true).(uncertain := Some(reply.messageId.text)), map[])
            else u
  {
  }

  lemma SettleConfirmKeeps(w: World, id: nat, reply: ConfirmReply)
    requires Inv(w) && id in w.tasks && w.tasks[id].ConfirmTask?
    ensures Inv(SettledConfirm(w, id, reply))
  {
    var u, task := Ended(w, id), w.tasks[id];
    assert InFlight(w, id) && Bound(w.s, w.now, task);
    EndedKeeps(w, id);
    ConfirmSettles(w, id, reply);
    if reply.Settled? && task.ticket == u.s.revision && !IsLive(u.s, u.now) {
      MovedKeeps(u, Checked(u.s, u.now));
    } else if reply.Settled? && task.ticket == u.s.revision && reply.status.Some? {
      AppendKeeps(u, Outbound(task.approved.body, reply.status.value), Str([]), task.approved.scope);
    } else if reply.OutcomeUnknown? && reply.messageId.Str? && Uuid(reply.messageId.text) {
      LatchKeeps(u, reply.messageId.text);
    }
  }

  lemma SettleReadKeeps(w: World, id: nat, reply: ReadReply)
    requires Inv(w) && id in w.tasks && w.tasks[id].ReadTask?
    ensures Inv(SettledRead(w, id, reply))
  {
    var u, v, task := Ended(w, id), SettledRead(w, id, reply), w.tasks[id];
    EndedKeeps(w, id);
    assert v == Moved(u, ReadFinished(u.s, u.now, task, reply), task.scope);
    if ReadFinished(u.s, u.now, task, reply) == u.s {
      assert v == u;
    } else if !IsLive(u.s, u.now) {
      MovedKeeps(u, Checked(u.s, u.now));
      assert v == Moved(u, Checked(u.s, u.now), map[]);
    } else {
      AppendKeeps(u, Inbound(reply.value.text), u.s.draft, task.scope);
    }
  }

  lemma TickKeeps(w: World, elapsed: real)
    requires Inv(w)
    ensures Inv(Step(w, Tick(elapsed)))
  {
    if elapsed >= 0.0 { BusyUnchanged(w, Step(w, Tick(elapsed))); }
  }

  lemma AuthoritySettlementKeeps(w: World, id: nat, reply: AuthorityReply)
    requires Inv(w)
    ensures Inv(Step(w, SettleAuthority(id, reply)))
  {
    if id in w.tasks && w.tasks[id].AuthorityTask? { SettleAuthorityKeeps(w, id, reply); }
  }

  lemma PrepareSettlementKeeps(w: World, id: nat, reply: PrepareReply)
    requires Inv(w)
    ensures Inv(Step(w, SettlePrepare(id, reply)))
  {
    if id in w.tasks && w.tasks[id].PrepareTask? { SettlePrepareKeeps(w, id, reply); }
  }

  lemma ConfirmSettlementKeeps(w: World, id: nat, reply: ConfirmReply)
    requires Inv(w)
    ensures Inv(Step(w, SettleConfirm(id, reply)))
  {
    if id in w.tasks && w.tasks[id].ConfirmTask? { SettleConfirmKeeps(w, id, reply); }
  }

  lemma ReadSettlementKeeps(w: World, id: nat, reply: ReadReply)
    requires Inv(w)
    ensures Inv(Step(w, SettleRead(id, reply)))
  {
    if id in w.tasks && w.tasks[id].ReadTask? { SettleReadKeeps(w, id, reply); }
  }

  lemma StepKeeps(w: World, e: Event)
    requires Inv(w)
    ensures Inv(Step(w, e))
  {
    match e
    case Tick(elapsed) => TickKeeps(w, elapsed);
    case Authorize => AuthorizeKeeps(w);
    case SettleAuthority(id, reply) => AuthoritySettlementKeeps(w, id, reply);
    case Edit(value) => EditKeeps(w, value);
    case Prepare => PrepareKeeps(w);
    case SettlePrepare(id, reply) => PrepareSettlementKeeps(w, id, reply);
    case Confirm => ConfirmKeeps(w);
    case CallGuard(id) => MovedKeeps(w, Checked(w.s, w.now));
    case SettleConfirm(id, reply) => ConfirmSettlementKeeps(w, id, reply);
    case Read => ReadKeeps(w);
    case SettleRead(id, reply) => ReadSettlementKeeps(w, id, reply);
    case Clear => MovedKeeps(w, Invalidated(w.s, true));
    case Observe => MovedKeeps(w, Observed(w.s, w.now));
  }

  lemma {:induction false} RunKeeps(w: World, events: seq<Event>)
    requires Inv(w)
    ensures Inv(Run(w, events))
    decreases |events|
  {
    if events != [] {
      StepKeeps(w, events[0]);
      RunKeeps(Step(w, events[0]), events[1..]);
    }
  }

  // ----- The main results, for every run from the start

  /** Busy means exactly one prepare or confirm in flight; no candidate is ever
      sent twice, and none that was not installed as a review. */
  lemma SentAtMostOnce(events: seq<Event>)
    ensures var w := Run(START, events);
            && BusyIsOneInFlight(w)
            && forall h :: w.confirmed[h] <= w.installed[h] <= 1
  {
    RunKeeps(START, events);
  }

  /** In a live conversation with nothing in flight, a review on display can be
      confirmed as it stands: the ticket, body and scope re-checks never fail. */
  lemma ReviewIsConfirmable(events: seq<Event>)
    ensures var w := Run(START, events);
            IsLive(w.s, w.now) && !w.s.busy && w.s.review.Some? ==>
              ConfirmStarted(w.s, w.now).1 == Some(ConfirmTask(w.s.revision, w.s.review.value))
  {
    RunKeeps(START, events);
  }

  /** Comparing tickets alone decides what the scope comparisons after an
      `await`, and in the guard, decide. */
  lemma TicketImpliesScope(events: seq<Event>, id: nat)
    ensures var w := Run(START, events);
            && (id in w.guards && w.guards[id].ConfirmTask? ==>
                  (GuardPasses(w.s, w.now, w.guards[id].ticket, w.guards[id].approved)
                   <==> IsLive(w.s, w.now) && w.guards[id].ticket == w.s.revision))
            && (id in w.tasks && w.tasks[id].ReadTask? && w.tasks[id].ticket == w.s.revision ==>
                  w.s.current == Some(w.tasks[id].scope))
            && (id in w.tasks && w.tasks[id].PrepareTask? && w.tasks[id].ticket == w.s.revision ==>
                  w.s.current == Some(w.tasks[id].scope) && w.s.draft == Str(w.tasks[id].text))
  {
    RunKeeps(START, events);
  }

  /** Each displayed message was sent or read under the present conversation;
      without one there is no message and no draft. */
  lemma DisplayIsIsolated(events: seq<Event>)
    ensures var w := Run(START, events);
            && |w.origins| == |w.s.messages|
            && (forall i | 0 <= i < |w.origins| :: w.s.current == Some(w.origins[i]))
            && (w.s.current.None? ==> w.s.messages == [] && w.s.draft == Str([]) && w.s.review.None?)
  {
    RunKeeps(START, events);
  }

  /** The guard lets a send through only in the scope that was reviewed, before
      the authority ends, and less than a minute after it was asked for; while
      the confirmation is in flight the draft is still the reviewed text. */
  lemma GuardIsTimely(events: seq<Event>, id: nat)
    ensures var w := Run(START, events);
            id in w.guards && w.guards[id].ConfirmTask?
            && GuardPasses(w.s, w.now, w.guards[id].ticket, w.guards[id].approved) ==>
              && w.s.current == Some(w.guards[id].approved.scope)
              && w.authorityStart <= w.now < w.s.until
              && w.now < w.authorityStart + MAX_VALIDITY
              && (id in w.tasks && w.tasks[id] == w.guards[id] ==> w.s.draft == Str(w.tasks[id].approved.body))
  {
    RunKeeps(START, events);
  }

  /** After a send with an unknown outcome, whatever was in flight and whatever
      happens next: the record stays, no conversation returns, nothing is shown,
      and no adapter call or confirmation begins. */
  lemma UnknownOutcomeIsFinal(before: seq<Event>, after: seq<Event>)
    requires Run(START, before).s.uncertain.Some?
    ensures var w := Run(START, before);
            var v := Run(w, after);
            && v.s.uncertain == w.s.uncertain
            && v.s.current.None?
            && v.s.messages == []
            && v.calls == w.calls
            && v.confirmed == w.confirmed
  {
    RunKeeps(START, before);
    StaysUnknown(Run(START, before), after);
  }

  lemma {:induction false} StaysUnknown(w: World, events: seq<Event>)
    requires Inv(w) && w.s.uncertain.Some?
    ensures var v := Run(w, events);
            && Inv(v)
            && v.s.uncertain == w.s.uncertain
            && v.calls == w.calls
            && v.confirmed == w.confirmed
    decreases |events|
  {
    if events != [] {
      StepKeeps(w, events[0]);
      UnknownStep(w, events[0]);
      StaysUnknown(Step(w, events[0]), events[1..]);
    }
  }

  lemma UnknownStep(w: World, e: Event)
    requires Inv(w) && w.s.uncertain.Some?
    ensures var v := Step(w, e);
            v.s.uncertain == w.s.uncertain && v.calls == w.calls && v.confirmed == w.confirmed
  {
    assert forall id | id in w.tasks && w.tasks[id].ConfirmTask? :: InFlight(w, id);
  }
}
