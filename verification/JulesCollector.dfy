/** What the collector does to one pull request: it reads the comments and
    reviews once, and then, session by session, asks the provider, posts a resume
    notice and a message, or publishes a result. Any request may fail, with or
    without having taken effect, and ends the run. Owner commands and people
    comment at any time. */
module JulesCollector {
  import opened Wrappers

  type Session = nat

  datatype Mode = ReviewMode | AddressMode

  /** The control marker of a comment, if it has one. */
  datatype Marker = NoMarker | Start(session: Session, mode: Mode) | Result(of: Session) | Resume(for_: Session)

  /** Only the workflow's own comments may carry control markers. */
  datatype Item = Item(fromActions: bool, marker: Marker)

  datatype State = State(comments: seq<Item>, reviews: seq<Item>, messages: seq<Session>)

  datatype Provider = Running | Completed | Failed | AwaitingFeedback | AwaitingPlan | Paused

  /** Where a request fails, and whether it took effect all the same. */
  datatype Failure = NoFailure | Early | OnNotice(applied: bool) | OnMessage(applied: bool) | OnResult(applied: bool)

  /** What one session's turn meets: comments that appear meanwhile, the state at
      the provider, whether the commits still match, whether the pull request is
      still eligible, whether the report is valid, and a failure. */
  datatype Turn = Turn(
    noise: seq<Item>, provider: Provider, matches: bool, eligible: bool, validReport: bool, failure: Failure)

  predicate Waiting(p: Provider) { p.AwaitingFeedback? || p.AwaitingPlan? || p.Paused? }

  function Marked(items: seq<Item>, m: Marker): nat {
    if items == [] then 0
    else (if items[|items| - 1] == Item(true, m) then 1 else 0) + Marked(items[..|items| - 1], m)
  }

  /** A session's published results, counted in comments and reviews alike. */
  function Results(s: State, x: Session): nat {
    Marked(s.comments, Result(x)) + Marked(s.reviews, Result(x))
  }

  function MessagesTo(messages: seq<Session>, x: Session): nat {
    if messages == [] then 0
    else (if messages[|messages| - 1] == x then 1 else 0) + MessagesTo(messages[..|messages| - 1], x)
  }

  /** Nobody else posts result or resume markers as the workflow. */
  predicate Harmless(noise: seq<Item>) {
    forall i | 0 <= i < |noise| :: noise[i].fromActions ==> !noise[i].marker.Result? && !noise[i].marker.Resume?
  }

  predicate OnceFor(s: State, x: Session) {
    && Results(s, x) <= 1
    && MessagesTo(s.messages, x) <= Marked(s.comments, Resume(x)) <= 1
  }

  ghost predicate AtMostOnce(s: State) {
    forall x :: OnceFor(s, x)
  }

  // ----- One run, as a fold over the comments it read

  datatype Run = Run(state: State, completed: set<Session>, resumed: set<Session>, stopped: bool)

  function Commented(r: Run, m: Marker): State {
    r.state.(comments := r.state.comments + [Item(true, m)])
  }

  /** Reserve the follow-up before sending it. */
  function Resumed(r: Run, x: Session, mode: Mode, t: Turn): Run {
    if t.failure.OnNotice? then r.(state := if t.failure.applied then Commented(r, Resume(x)) else r.state, stopped := true)
    else
      var u := r.(state := Commented(r, Resume(x)), resumed := r.resumed + {x});
      if !(mode.ReviewMode? && t.provider.AwaitingFeedback? && t.eligible) then u
      else
        var sent := u.state.(messages := u.state.messages + [x]);
        if t.failure.OnMessage? then u.(state := if t.failure.applied then sent else u.state, stopped := true)
        else u.(state := sent)
  }

  function Published(r: Run, x: Session, mode: Mode, t: Turn): Run {
    var asReview := mode.ReviewMode? && t.matches && t.provider != Failed && t.validReport;
    var done := if asReview then r.state.(reviews := r.state.reviews + [Item(true, Result(x))]) else Commented(r, Result(x));
    if t.failure.OnResult? then r.(state := if t.failure.applied then done else r.state, stopped := true)
    else r.(state := done, completed := r.completed + {x})
  }

  function TurnTaken(r: Run, item: Item, t: Turn): Run {
    if r.stopped then r
    else
      var u := r.(state := r.state.(comments := r.state.comments + t.noise));
      if !item.fromActions || !item.marker.Start? || item.marker.session in u.completed then u
      else if t.failure.Early? then u.(stopped := true)
      else if t.provider.Running? then u
      else if Waiting(t.provider) && t.matches then
        if item.marker.session in u.resumed then u else Resumed(u, item.marker.session, item.marker.mode, t)
      else Published(u, item.marker.session, item.marker.mode, t)
  }

  function Folded(r: Run, items: seq<Item>, turns: seq<Turn>): Run
    requires |items| <= |turns|
  {
    if items == [] then r
    else TurnTaken(Folded(r, items[..|items| - 1], turns), items[|items| - 1], turns[|items| - 1])
  }

  function SessionsWith(items: seq<Item>, results: bool): set<Session> {
    if results then set i | 0 <= i < |items| && items[i].fromActions && items[i].marker.Result? :: items[i].marker.of
    else set i | 0 <= i < |items| && items[i].fromActions && items[i].marker.Resume? :: items[i].marker.for_
  }

  function Begun(s: State): Run {
    Run(s, SessionsWith(s.comments + s.reviews, true), SessionsWith(s.comments, false), false)
  }

  /** A whole run; it reads the comments and reviews first. */
  function Collected(s: State, turns: seq<Turn>): State
    requires |s.comments| <= |turns|
  {
    Folded(Begun(s), s.comments, turns).state
  }

  class PullRequest {
    var comments: seq<Item>
    var reviews: seq<Item>
    var messages: seq<Session>

    ghost function View(): State
      reads this
    {
      State(comments, reviews, messages)
    }

    /** One collector run on this pull request. */
    method Collect(turns: seq<Turn>) returns (failed: bool)
      requires |comments| <= |turns|
      modifies this
      ensures View() == Collected(old(View()), turns)
      ensures failed == Folded(Begun(old(View())), old(comments), turns).stopped
    {
      var snapshot := comments;
      var completed, resumed := SessionsWith(comments + reviews, true), SessionsWith(comments, false);
      failed := false;
      ghost var begun := Begun(View());
      var i := 0;
      while i < |snapshot| && !failed
        invariant 0 <= i <= |snapshot|
        invariant Run(View(), completed, resumed, failed) == Folded(begun, snapshot[..i], turns)
      {
        assert snapshot[..i + 1][..i] == snapshot[..i];
        var item, t := snapshot[i], turns[i];
        i := i + 1;
        comments := comments + t.noise;
        if !item.fromActions || !item.marker.Start? || item.marker.session in completed {
          continue;
        }
        var session, mode := item.marker.session, item.marker.mode;
        if t.failure.Early? {
          failed := true;
          continue;
        }
        if t.provider.Running? {
          continue;
        }
        if Waiting(t.provider) && t.matches {
          if session in resumed {
            continue;
          }
          if t.failure.OnNotice? && !t.failure.applied {
            failed := true;
            continue;
          }
          comments := comments + [Item(true, Resume(session))];
          if t.failure.OnNotice? {
            failed := true;
            continue;
          }
          resumed := resumed + {session};
          if mode.ReviewMode? && t.provider.AwaitingFeedback? && t.eligible {
            if !t.failure.OnMessage? || t.failure.applied {
              messages := messages + [session];
            }
            failed := t.failure.OnMessage?;
          }
          continue;
        }
        if t.failure.OnResult? && !t.failure.applied {
          failed := true;
          continue;
        }
        if mode.ReviewMode? && t.matches && t.provider != Failed && t.validReport {
          reviews := reviews + [Item(true, Result(session))];
        } else {
          comments := comments + [Item(true, Result(session))];
        }
        if t.failure.OnResult? {
          failed := true;
        } else {
          completed := completed + {session};
        }
      }
      assert snapshot[..|snapshot|] == snapshot;
      if failed {
        StoppedStays(begun, snapshot, i, turns);
      }
    }
  }

  lemma {:induction false} StoppedStays(r: Run, items: seq<Item>, i: nat, turns: seq<Turn>)
    requires i <= |items| <= |turns| && Folded(r, items[..i], turns).stopped
    ensures Folded(r, items, turns) == Folded(r, items[..i], turns)
    decreases |items|
  {
    if i < |items| {
      var rest := items[..|items| - 1];
      assert rest[..i] == items[..i];
      StoppedStays(r, rest, i, turns);
    } else {
      assert items[..i] == items;
    }
  }

  // ----- What every run keeps

  lemma MarkedOne(items: seq<Item>, item: Item, m: Marker)
    ensures Marked(items + [item], m) == Marked(items, m) + if item == Item(true, m) then 1 else 0
  {
    assert (items + [item])[..|items|] == items;
  }

  lemma {:induction false} MarkedNoise(items: seq<Item>, noise: seq<Item>, m: Marker)
    requires Harmless(noise) && (m.Result? || m.Resume?)
    ensures Marked(items + noise, m) == Marked(items, m)
  {
    if noise == [] {
      assert items + noise == items;
    } else {
      var rest := noise[..|noise| - 1];
      MarkedNoise(items, rest, m);
      MarkedOne(items + rest, noise[|noise| - 1], m);
      assert items + noise == items + rest + [noise[|noise| - 1]];
    }
  }

  lemma {:induction false} MarkedIsPresent(items: seq<Item>, m: Marker)
    requires Marked(items, m) > 0
    ensures Item(true, m) in items
  {
    if items[|items| - 1] != Item(true, m) {
      MarkedIsPresent(items[..|items| - 1], m);
    }
  }

  /** While the run goes on it knows every result and resume marker there is. */
  predicate SoundFor(r: Run, x: Session) {
    && OnceFor(r.state, x)
    && (!r.stopped ==>
          && (Results(r.state, x) > 0 ==> x in r.completed)
          && (Marked(r.state.comments, Resume(x)) > 0 ==> x in r.resumed))
  }

  ghost predicate Sound(r: Run) {
    forall x :: SoundFor(r, x)
  }

  lemma SoundIsOnce(r: Run)
    requires Sound(r)
    ensures AtMostOnce(r.state)
  {
    forall x ensures OnceFor(r.state, x) {
      assert SoundFor(r, x);
    }
  }

  lemma BegunIsSound(s: State)
    requires AtMostOnce(s)
    ensures Sound(Begun(s))
  {
    var all := s.comments + s.reviews;
    forall x ensures SoundFor(Begun(s), x) {
      assert OnceFor(s, x);
      if Marked(s.comments, Result(x)) > 0 {
        MarkedIsPresent(s.comments, Result(x));
        assert Item(true, Result(x)) in all;
      }
      if Marked(s.reviews, Result(x)) > 0 {
        MarkedIsPresent(s.reviews, Result(x));
        assert Item(true, Result(x)) in all;
      }
      if Marked(s.comments, Resume(x)) > 0 {
        MarkedIsPresent(s.comments, Resume(x));
      }
    }
  }

  lemma NoiseKeeps(r: Run, noise: seq<Item>)
    requires Sound(r) && Harmless(noise)
    ensures Sound(r.(state := r.state.(comments := r.state.comments + noise)))
  {
    var u := r.(state := r.state.(comments := r.state.comments + noise));
    forall x ensures SoundFor(u, x) {
      assert SoundFor(r, x);
      MarkedNoise(r.state.comments, noise, Result(x));
      MarkedNoise(r.state.comments, noise, Resume(x));
    }
  }

  lemma NoticeCounts(r: Run, x: Session, y: Session)
    ensures Marked(Commented(r, Resume(x)).comments, Resume(y)) == Marked(r.state.comments, Resume(y)) + if x == y then 1 else 0
    ensures Results(Commented(r, Resume(x)), y) == Results(r.state, y)
  {
    MarkedOne(r.state.comments, Item(true, Resume(x)), Resume(y));
    MarkedOne(r.state.comments, Item(true, Resume(x)), Result(y));
  }

  lemma MessagesOne(messages: seq<Session>, x: Session, y: Session)
    ensures MessagesTo(messages + [x], y) == MessagesTo(messages, y) + if x == y then 1 else 0
  {
    assert (messages + [x])[..|messages|] == messages;
  }

  /** The notice is posted; the run goes on or has failed. */
  lemma NoticeKeeps(r: Run, x: Session, y: Session, stopped: bool)
    requires SoundFor(r, y) && !r.stopped && x !in r.resumed
    ensures SoundFor(Run(Commented(r, Resume(x)), r.completed, r.resumed + {x}, stopped), y)
    ensures y == x ==> MessagesTo(r.state.messages, y) == 0 && Marked(Commented(r, Resume(x)).comments, Resume(y)) == 1
  {
    NoticeCounts(r, x, y);
  }

  /** And the message after it. */
  lemma MessageKeeps(r: Run, x: Session, y: Session, stopped: bool)
    requires SoundFor(r, y) && !r.stopped
    requires y == x ==> MessagesTo(r.state.messages, y) < Marked(r.state.comments, Resume(y))
    ensures SoundFor(r.(state := r.state.(messages := r.state.messages + [x]), stopped := stopped), y)
  {
    MessagesOne(r.state.messages, x, y);
  }

  lemma ResumedKeeps(r: Run, x: Session, mode: Mode, t: Turn)
    requires Sound(r) && !r.stopped && x !in r.resumed
    ensures Sound(Resumed(r, x, mode, t))
  {
    var u := Run(Commented(r, Resume(x)), r.completed, r.resumed + {x}, false);
    forall y ensures SoundFor(Resumed(r, x, mode, t), y) {
      assert SoundFor(r, y);
      NoticeKeeps(r, x, y, true);
      NoticeKeeps(r, x, y, false);
      MessageKeeps(u, x, y, t.failure.OnMessage?);
    }
  }

  lemma PublishedKeeps(r: Run, x: Session, mode: Mode, t: Turn)
    requires Sound(r) && !r.stopped && x !in r.completed
    ensures Sound(Published(r, x, mode, t))
  {
    forall y ensures SoundFor(Published(r, x, mode, t), y) {
      assert SoundFor(r, y);
      MarkedOne(r.state.comments, Item(true, Result(x)), Result(y));
      MarkedOne(r.state.reviews, Item(true, Result(x)), Result(y));
      MarkedOne(r.state.comments, Item(true, Result(x)), Resume(y));
    }
  }

  lemma TurnKeeps(r: Run, item: Item, t: Turn)
    requires Sound(r) && Harmless(t.noise)
    ensures Sound(TurnTaken(r, item, t))
  {
    if !r.stopped {
      var u := r.(state := r.state.(comments := r.state.comments + t.noise));
      NoiseKeeps(r, t.noise);
      forall y ensures SoundFor(u.(stopped := true), y) {
        assert SoundFor(u, y);
      }
      if item.fromActions && item.marker.Start? && item.marker.session !in u.completed {
        var x, mode := item.marker.session, item.marker.mode;
        if Waiting(t.provider) && t.matches {
          if x !in u.resumed {
            ResumedKeeps(u, x, mode, t);
          }
        } else {
          PublishedKeeps(u, x, mode, t);
        }
      }
    }
  }

  lemma {:induction false} FoldKeeps(r: Run, items: seq<Item>, turns: seq<Turn>)
    requires |items| <= |turns| && Sound(r) && forall i | 0 <= i < |turns| :: Harmless(turns[i].noise)
    ensures Sound(Folded(r, items, turns))
  {
    if items != [] {
      FoldKeeps(r, items[..|items| - 1], turns);
      TurnKeeps(Folded(r, items[..|items| - 1], turns), items[|items| - 1], turns[|items| - 1]);
    }
  }

  /** The collector runs one after another; between two runs others comment. */
  datatype Round = Round(between: seq<Item>, turns: seq<Turn>)

  function Rounds(s: State, rounds: seq<Round>): State
    decreases |rounds|
  {
    if rounds == [] then s
    else
      var t := s.(comments := s.comments + rounds[0].between);
      Rounds(if |t.comments| <= |rounds[0].turns| then Collected(t, rounds[0].turns) else t, rounds[1..])
  }

  ghost predicate HarmlessRound(r: Round) {
    Harmless(r.between) && forall i | 0 <= i < |r.turns| :: Harmless(r.turns[i].noise)
  }

  /** Over any sequence of collector runs, with failures at any request: each
      session gets at most one automatic message, only after its resume marker
      was posted, and at most one published result. */
  lemma {:induction false} EffectsHappenAtMostOnce(s: State, rounds: seq<Round>)
    requires AtMostOnce(s) && forall i | 0 <= i < |rounds| :: HarmlessRound(rounds[i])
    ensures AtMostOnce(Rounds(s, rounds))
    decreases |rounds|
  {
    if rounds != [] {
      var t := s.(comments := s.comments + rounds[0].between);
      BegunIsSound(s);
      NoiseKeeps(Begun(s), rounds[0].between);
      SoundIsOnce(Begun(s).(state := t));
      BegunIsSound(t);
      var next := if |t.comments| <= |rounds[0].turns| then Collected(t, rounds[0].turns) else t;
      if |t.comments| <= |rounds[0].turns| {
        FoldKeeps(Begun(t), t.comments, rounds[0].turns);
        SoundIsOnce(Folded(Begun(t), t.comments, rounds[0].turns));
      }
      EffectsHappenAtMostOnce(next, rounds[1..]);
    }
  }

  // ----- A run that no request fails publishes what is settled

  /** The session has ended, or waits for commits that no longer match. */
  predicate Settles(t: Turn) {
    t.failure.NoFailure? && !t.provider.Running? && !(Waiting(t.provider) && t.matches)
  }

  predicate BackedFor(r: Run, x: Session) { x in r.completed ==> Results(r.state, x) > 0 }

  ghost predicate Backed(r: Run) { forall x :: BackedFor(r, x) }

  lemma {:induction false} PresentIsMarked(items: seq<Item>, m: Marker)
    requires Item(true, m) in items
    ensures Marked(items, m) > 0
  {
    var n := |items| - 1;
    assert items == items[..n] + [items[n]];
    if items[n] != Item(true, m) {
      PresentIsMarked(items[..n], m);
    }
  }

  lemma BegunIsBacked(s: State)
    ensures Backed(Begun(s))
  {
    forall x ensures BackedFor(Begun(s), x) {
      if x in SessionsWith(s.comments + s.reviews, true) {
        if Item(true, Result(x)) in s.comments {
          PresentIsMarked(s.comments, Result(x));
        } else {
          PresentIsMarked(s.reviews, Result(x));
        }
      }
    }
  }

  lemma PublishedBacks(r: Run, x: Session, mode: Mode, t: Turn)
    requires Backed(r) && !t.failure.OnResult?
    ensures Backed(Published(r, x, mode, t))
  {
    forall y ensures BackedFor(Published(r, x, mode, t), y) {
      assert BackedFor(r, y);
      MarkedOne(r.state.comments, Item(true, Result(x)), Result(y));
      MarkedOne(r.state.reviews, Item(true, Result(x)), Result(y));
    }
  }

  lemma ResumedBacks(r: Run, x: Session, mode: Mode, t: Turn)
    requires Backed(r) && !r.stopped && t.failure.NoFailure?
    ensures var v := Resumed(r, x, mode, t);
            Backed(v) && !v.stopped && v.completed == r.completed
  {
    forall y ensures BackedFor(Resumed(r, x, mode, t), y) {
      assert BackedFor(r, y);
      MarkedOne(r.state.comments, Item(true, Resume(x)), Result(y));
    }
  }

  lemma TurnPublishes(r: Run, item: Item, t: Turn)
    requires Backed(r) && !r.stopped && Harmless(t.noise) && t.failure.NoFailure?
    ensures var v := TurnTaken(r, item, t);
            && Backed(v) && !v.stopped && r.completed <= v.completed
            && (Settles(t) && item.fromActions && item.marker.Start? ==> item.marker.session in v.completed)
  {
    var u := r.(state := r.state.(comments := r.state.comments + t.noise));
    forall x ensures BackedFor(u, x) {
      assert BackedFor(r, x);
      MarkedNoise(r.state.comments, t.noise, Result(x));
    }
    if item.fromActions && item.marker.Start? {
      PublishedBacks(u, item.marker.session, item.marker.mode, t);
      ResumedBacks(u, item.marker.session, item.marker.mode, t);
    }
  }

  lemma {:induction false} FoldPublishes(r: Run, items: seq<Item>, turns: seq<Turn>)
    requires |items| <= |turns| && Backed(r) && !r.stopped
    requires forall i | 0 <= i < |items| :: Harmless(turns[i].noise) && turns[i].failure.NoFailure?
    ensures var v := Folded(r, items, turns);
            && Backed(v) && !v.stopped && r.completed <= v.completed
            && forall i | 0 <= i < |items| && Settles(turns[i]) && items[i].fromActions && items[i].marker.Start? ::
                 items[i].marker.session in v.completed
  {
    if items != [] {
      var n := |items| - 1;
      FoldPublishes(r, items[..n], turns);
      TurnPublishes(Folded(r, items[..n], turns), items[n], turns[n]);
    }
  }

  /** Over a run in which no request fails, whatever state the other sessions are
      in, a started session that has settled ends up with exactly one result. */
  lemma SettledSessionsArePublished(s: State, turns: seq<Turn>, i: nat)
    requires AtMostOnce(s) && |s.comments| <= |turns| && forall j | 0 <= j < |turns| :: Harmless(turns[j].noise)
    requires forall j | 0 <= j < |s.comments| :: turns[j].failure.NoFailure?
    requires i < |s.comments| && s.comments[i].fromActions && s.comments[i].marker.Start? && Settles(turns[i])
    ensures Results(Collected(s, turns), s.comments[i].marker.session) == 1
  {
    var x, r := s.comments[i].marker.session, Folded(Begun(s), s.comments, turns);
    BegunIsBacked(s);
    FoldPublishes(Begun(s), s.comments, turns);
    assert BackedFor(r, x);
    BegunIsSound(s);
    FoldKeeps(Begun(s), s.comments, turns);
    assert SoundFor(r, x);
  }

  // ----- A request that takes effect only after it has failed

  /** A request from a run that has given up on it. A result is posted as a comment
      or as a review. */
  datatype Request = ResultRequest(x: Session, asReview: bool) | NoticeRequest(x: Session) | MessageRequest(x: Session)

  function Late(s: State, q: Request): State {
    match q
    case ResultRequest(x, false) => s.(comments := s.comments + [Item(true, Result(x))])
    case ResultRequest(x, true) => s.(reviews := s.reviews + [Item(true, Result(x))])
    case NoticeRequest(x) => s.(comments := s.comments + [Item(true, Resume(x))])
    case MessageRequest(x) => s.(messages := s.messages + [x])
  }

  /** No later run has done the same for the session; a message moreover needs its notice. */
  predicate Fresh(s: State, q: Request) {
    match q
    case ResultRequest(x, _) => Results(s, x) == 0
    case NoticeRequest(x) => Marked(s.comments, Resume(x)) == 0
    case MessageRequest(x) => MessagesTo(s.messages, x) < Marked(s.comments, Resume(x))
  }

  lemma LateCounts(s: State, q: Request, y: Session)
    ensures Results(Late(s, q), y) == Results(s, y) + if q.ResultRequest? && q.x == y then 1 else 0
    ensures Marked(Late(s, q).comments, Resume(y)) == Marked(s.comments, Resume(y)) + if q == NoticeRequest(y) then 1 else 0
    ensures MessagesTo(Late(s, q).messages, y) == MessagesTo(s.messages, y) + if q == MessageRequest(y) then 1 else 0
  {
    match q
    case ResultRequest(x, asReview) =>
      MarkedOne(if asReview then s.reviews else s.comments, Item(true, Result(x)), Result(y));
      MarkedOne(s.comments, Item(true, Result(x)), Resume(y));
    case NoticeRequest(x) =>
      MarkedOne(s.comments, Item(true, Resume(x)), Result(y));
      MarkedOne(s.comments, Item(true, Resume(x)), Resume(y));
    case MessageRequest(x) => MessagesOne(s.messages, x, y);
  }

  /** A request that takes effect late keeps every session at one result and at most
      one message behind one notice if and only if it is fresh. */
  lemma LateRequestIsExact(s: State, q: Request)
    requires AtMostOnce(s)
    ensures AtMostOnce(Late(s, q)) <==> Fresh(s, q)
  {
    forall y ensures OnceFor(Late(s, q), y) <==> (y == q.x ==> Fresh(s, q)) {
      assert OnceFor(s, y);
      LateCounts(s, q, y);
    }
    if AtMostOnce(Late(s, q)) { assert OnceFor(Late(s, q), q.x); }
  }

  /** A run over one address session that has ended. */
  const ENDED := Turn([], Completed, true, true, false, NoFailure)

  function Alone(x: Session): State { State([Item(true, Start(x, AddressMode))], [], []) }

  lemma OneTurn(x: Session, t: Turn)
    ensures Collected(Alone(x), [t]) == TurnTaken(Begun(Alone(x)), Item(true, Start(x, AddressMode)), t).state
  {
    var items := Alone(x).comments;
    assert items[..|items| - 1] == [];
    assert Folded(Begun(Alone(x)), [], [t]) == Begun(Alone(x));
  }

  /** So if a request fails before it takes effect, a second run publishes, and
      then the first request takes effect, there are two results. */
  lemma LateResultPublishesTwice(x: Session)
    ensures Collected(Alone(x), [ENDED.(failure := OnResult(false))]) == Alone(x)
    ensures Results(Collected(Alone(x), [ENDED]), x) == 1 && Results(Late(Collected(Alone(x), [ENDED]), ResultRequest(x, false)), x) == 2
  {
    var s := Alone(x);
    assert s.comments + [] == s.comments;
    OneTurn(x, ENDED.(failure := OnResult(false)));
    OneTurn(x, ENDED);
    var once := Collected(s, [ENDED]);
    assert once.comments == s.comments + [Item(true, Result(x))];
    assert s.comments[..0] == [];
    MarkedOne(s.comments, Item(true, Result(x)), Result(x));
    MarkedOne(once.comments, Item(true, Result(x)), Result(x));
  }
}
