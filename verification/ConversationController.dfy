/** The owner conversation controller: the closure variables as the fields of
    a class, and every synchronous segment of its operations (up to an `await`,
    or from its settlement to the end) as one method. Each method is proved
    equal to a step on `State` values; ConversationRuns proves what every
    interleaving of those steps keeps.

    A segment reads the clock at most once, so a method takes that reading. */
module ConversationController {
  import opened Wrappers
  import opened ConversationValues

  const MAX_VALIDITY := 60000.0

  datatype Status = SimulatorAccepted | Queued

  datatype Message = Outbound(body: Text, status: Status) | Inbound(body: Text)

  /** `handle` names the adapter candidate whose `confirm` sends the message. */
  datatype Review = Review(scope: Scope, body: Text, handle: nat, ticket: nat)

  datatype State = State(
    current: Option<Scope>, until: real, draft: Value, review: Option<Review>,
    revision: nat, busy: bool, messages: seq<Message>, uncertain: Option<Text>)

  const INITIAL := State(None, 0.0, Str([]), None, 0, false, [], None)

  /** What a suspended operation still holds when its promise settles. */
  datatype Task =
    | AuthorityTask(ticket: nat, started: real)
    | PrepareTask(ticket: nat, scope: Scope, text: Text)
    | ConfirmTask(ticket: nat, approved: Review)
    | ReadTask(ticket: nat, scope: Scope)

  /** Adapter settlements. `Rejected` is any thrown error with no known effect. */
  datatype AuthorityReply = Authority(scope: map<Field, Text>, active: bool, validForMs: Option<real>) | NoAuthority
  datatype PrepareReply = Candidate(callable: bool) | NoCandidate
  datatype ConfirmReply = Settled(status: Option<Status>) | OutcomeUnknown(messageId: Value) | Rejected
  datatype ReadReply = Plaintext(value: Value) | NoPlaintext

  predicate IsLive(s: State, now: real) { s.current.Some? && now < s.until }

  function Invalidated(s: State, clear: bool): State {
    var t := s.(revision := s.revision + 1, review := None);
    if clear then t.(current := None, until := 0.0, draft := Str([]), messages := []) else t
  }

  /** The state `live()` leaves, whether it returns or throws. */
  function Checked(s: State, now: real): State {
    if IsLive(s, now) then s else Invalidated(s, true)
  }

  function AuthorizeStarted(s: State, now: real): (State, Option<Task>) {
    if s.uncertain.Some? then (s, None)
    else (Invalidated(s, true), Some(AuthorityTask(s.revision + 1, now)))
  }

  predicate GrantsAuthority(reply: AuthorityReply, started: real, now: real) {
    && reply.Authority?
    && ValidScope(reply.scope)
    && reply.active
    && reply.validForMs.Some?
    && 0.0 < reply.validForMs.value <= MAX_VALIDITY
    && now < started + reply.validForMs.value
  }

  function AuthorizeFinished(s: State, now: real, ticket: nat, started: real, reply: AuthorityReply): State {
    if ticket == s.revision && GrantsAuthority(reply, started, now)
    then s.(current := Some(reply.scope), until := started + reply.validForMs.value)
    else s
  }

  function Edited(s: State, now: real, value: Value): State {
    if IsLive(s, now) then Invalidated(s, false).(draft := value) else Checked(s, now)
  }

  function PrepareStarted(s: State, now: real): (State, Option<Task>) {
    if !IsLive(s, now) then (Checked(s, now), None)
    else if s.busy then (s, None)
    else
      var t := Invalidated(s, false);
      if !ValidBody(t.draft) then (t, None)
      else (t.(busy := true), Some(PrepareTask(t.revision, s.current.value, t.draft.text)))
  }

  function PrepareFinished(s: State, now: real, task: Task, reply: PrepareReply, handle: nat): State
    requires task.PrepareTask?
  {
    if reply.NoCandidate? then s.(busy := false)
    else if !IsLive(s, now) then Checked(s, now).(busy := false)
    else if task.ticket == s.revision && s.current == Some(task.scope) && s.draft == Str(task.text) && reply.callable
    then s.(review := Some(Review(task.scope, task.text, handle, task.ticket)), busy := false)
    else s.(busy := false)
  }

  /** The re-checks `confirm` makes on the review before it is consumed. */
  predicate ReviewMatches(s: State) {
    && s.review.Some?
    && s.review.value.ticket == s.revision
    && s.draft == Str(s.review.value.body)
    && s.current == Some(s.review.value.scope)
  }

  function ConfirmStarted(s: State, now: real): (State, Option<Task>) {
    if !IsLive(s, now) then (Checked(s, now), None)
    else if s.busy || !ReviewMatches(s) then (s, None)
    else (s.(review := None, busy := true), Some(ConfirmTask(s.revision, s.review.value)))
  }

  /** Whether the callback handed to the adapter returns instead of throwing. */
  predicate GuardPasses(s: State, now: real, ticket: nat, approved: Review) {
    IsLive(s, now) && ticket == s.revision && s.current == Some(approved.scope)
  }

  function ConfirmFinished(s: State, now: real, task: Task, reply: ConfirmReply): State
    requires task.ConfirmTask?
  {
    match reply
    case Settled(status) =>
      if task.ticket != s.revision then s.(busy := false)
      else if !IsLive(s, now) then Checked(s, now).(busy := false)
      else if status.None? then s.(busy := false)
      else s.(messages := s.messages + [Outbound(task.approved.body, status.value)], draft := Str([]), busy := false)
    case OutcomeUnknown(id) =>
      if id.Str? && Uuid(id.text)
      then Invalidated(s, true).(uncertain := Some(id.text), busy := false)
      else s.(busy := false)
    case Rejected => s.(busy := false)
  }

  function ReadStarted(s: State, now: real): (State, Option<Task>) {
    if IsLive(s, now) then (s, Some(ReadTask(s.revision, s.current.value))) else (Checked(s, now), None)
  }

  function ReadFinished(s: State, now: real, task: Task, reply: ReadReply): State
    requires task.ReadTask?
  {
    if reply.NoPlaintext? || !ValidBody(reply.value) then s
    else if !IsLive(s, now) then Checked(s, now)
    else if task.ticket == s.revision && s.current == Some(task.scope)
    then s.(messages := s.messages + [Inbound(reply.value.text)])
    else s
  }

  /** `state()` drops an expired conversation but does not throw. */
  function Observed(s: State, now: real): State {
    if s.current.Some? && s.until <= now then Invalidated(s, true) else s
  }

  class Controller {
    var current: Option<Scope>
    var until: real
    var draft: Value
    var review: Option<Review>
    var revision: nat
    var busy: bool
    var messages: seq<Message>
    var uncertain: Option<Text>

    ghost function View(): State
      reads this
    {
      State(current, until, draft, review, revision, busy, messages, uncertain)
    }

    constructor ()
      ensures View() == INITIAL
    {
      current, until, draft, review := None, 0.0, Str([]), None;
      revision, busy, messages, uncertain := 0, false, [], None;
    }

    method Invalidate(clear: bool)
      modifies this
      ensures View() == Invalidated(old(View()), clear)
    {
      revision := revision + 1;
      review := None;
      if clear {
        current, until, draft, messages := None, 0.0, Str([]), [];
      }
    }

    method Live(now: real) returns (ok: bool)
      modifies this
      ensures ok == IsLive(old(View()), now)
      ensures View() == Checked(old(View()), now)
    {
      if current.None? || now >= until {
        Invalidate(true);
        return false;
      }
      return true;
    }

    method StartAuthorize(now: real) returns (task: Option<Task>)
      modifies this
      ensures (View(), task) == AuthorizeStarted(old(View()), now)
    {
      if uncertain.Some? {
        return None;
      }
      Invalidate(true);
      return Some(AuthorityTask(revision, now));
    }

    method FinishAuthorize(now: real, ticket: nat, started: real, reply: AuthorityReply)
      returns (selected: Option<Scope>)
      modifies this
      ensures View() == AuthorizeFinished(old(View()), now, ticket, started, reply)
      ensures selected.Some? ==> selected == current
    {
      if reply.NoAuthority? || ticket != revision || !ValidScope(reply.scope) {
        return None;
      }
      if !reply.active || reply.validForMs.None? || reply.validForMs.value <= 0.0
         || reply.validForMs.value > MAX_VALIDITY || now >= started + reply.validForMs.value {
        return None;
      }
      current, until := Some(reply.scope), started + reply.validForMs.value;
      return current;
    }

    method Edit(now: real, value: Value)
      modifies this
      ensures View() == Edited(old(View()), now, value)
    {
      var ok := Live(now);
      if ok {
        Invalidate(false);
        draft := value;
      }
    }

    method StartPrepare(now: real) returns (task: Option<Task>)
      modifies this
      ensures (View(), task) == PrepareStarted(old(View()), now)
    {
      var ok := Live(now);
      if !ok || busy {
        return None;
      }
      Invalidate(false);
      if !ValidBody(draft) {
        return None;
      }
      busy := true;
      return Some(PrepareTask(revision, current.value, draft.text));
    }

    method FinishPrepare(now: real, task: Task, reply: PrepareReply, handle: nat)
      requires task.PrepareTask?
      modifies this
      ensures View() == PrepareFinished(old(View()), now, task, reply, handle)
    {
      if reply.Candidate? {
        var ok := Live(now);
        if ok && task.ticket == revision && current == Some(task.scope) && draft == Str(task.text) && reply.callable {
          review := Some(Review(task.scope, task.text, handle, task.ticket));
        }
      }
      busy := false;
    }

    method StartConfirm(now: real) returns (task: Option<Task>)
      modifies this
      ensures (View(), task) == ConfirmStarted(old(View()), now)
    {
      var ok := Live(now);
      if !ok || busy || review.None? || review.value.ticket != revision
         || draft != Str(review.value.body) || current != Some(review.value.scope) {
        return None;
      }
      var approved := review.value;
      review, busy := None, true;
      return Some(ConfirmTask(revision, approved));
    }

    method Guard(now: real, ticket: nat, approved: Review) returns (ok: bool)
      modifies this
      ensures ok == GuardPasses(old(View()), now, ticket, approved)
      ensures View() == Checked(old(View()), now)
    {
      ok := Live(now);
      if ok {
        ok := ticket == revision && current == Some(approved.scope);
      }
    }

    method FinishConfirm(now: real, task: Task, reply: ConfirmReply)
      requires task.ConfirmTask?
      modifies this
      ensures View() == ConfirmFinished(old(View()), now, task, reply)
    {
      match reply {
        case Settled(status) =>
          if task.ticket == revision {
            var ok := Live(now);
            if ok && status.Some? {
              messages := messages + [Outbound(task.approved.body, status.value)];
              draft := Str([]);
            }
          }
        case OutcomeUnknown(id) =>
          if id.Str? && Uuid(id.text) {
            Invalidate(true);
            uncertain := Some(id.text);
          }
        case Rejected =>
      }
      busy := false;
    }

    method StartRead(now: real) returns (task: Option<Task>)
      modifies this
      ensures (View(), task) == ReadStarted(old(View()), now)
    {
      var ok := Live(now);
      if !ok {
        return None;
      }
      return Some(ReadTask(revision, current.value));
    }

    method FinishRead(now: real, task: Task, reply: ReadReply) returns (text: Option<Text>)
      requires task.ReadTask?
      modifies this
      ensures View() == ReadFinished(old(View()), now, task, reply)
      ensures text.Some? ==> messages == old(messages) + [Inbound(text.value)]
    {
      if reply.NoPlaintext? || !ValidBody(reply.value) {
        return None;
      }
      var ok := Live(now);
      if !ok || task.ticket != revision || current != Some(task.scope) {
        return None;
      }
      messages := messages + [Inbound(reply.value.text)];
      return Some(reply.value.text);
    }

    /** The snapshot shows a review only while nothing is in flight. */
    method Observe(now: real) returns (canConfirm: bool)
      modifies this
      ensures View() == Observed(old(View()), now)
      ensures canConfirm == (review.Some? && !busy)
    {
      if current.Some? && now >= until {
        Invalidate(true);
      }
      return review.Some? && !busy;
    }
  }
}
