/** The `jules-pending` label of one pull request. Owner commands start sessions
    while a scheduled collector, of which only one runs at a time, publishes
    results and takes the label off. Every request is one step, and the steps of
    the runs interleave freely. */
module JulesLabels {
  import opened Wrappers

  type Session = nat

  datatype StartRun = Creating(session: Session) | Posted(session: Session)

  /** What one listing of the comments shows. */
  datatype Comments = Comments(started: set<Session>, finished: set<Session>)

  datatype Collector =
    | Listed
    | CommentsRead(seen: Comments)
    | Working(started: set<Session>, completed: set<Session>)
    | Rechecking
    | RecheckedComments(seen: Comments)
    | Deleting
    | Deleted
    | ReadAgain(seen: Comments)
    | Restoring

  datatype World = World(
    started: set<Session>,             // sessions with a START marker
    resultComments: set<Session>,      // sessions whose result is an issue comment
    resultReviews: set<Session>,       // sessions whose result is a review
    labelled: bool,
    starts: map<nat, StartRun>,
    collector: Option<Collector>)

  const EMPTY := World({}, {}, {}, false, map[], None)

  datatype Step =
    | BeginStart(pid: nat, session: Session) | PostStart(pid: nat) | AddLabel(pid: nat) | StopStart(pid: nat)
    | BeginCollector | ReadComments | ReadReviews
    | Publish(session: Session, asReview: bool)
    | FinishWork | RecheckComments | RecheckReviews | DeleteLabel | RereadComments | RereadReviews | RestoreLabel
    | StopCollector
    | Relabel                          // the backfill, or a maintainer, adds the label

  function Unfinished(w: World): set<Session> {
    w.started - w.resultComments - w.resultReviews
  }

  function Listing(w: World): Comments {
    Comments(w.started, w.resultComments)
  }

  /** `unfinished_sessions_present` on a listing of comments and one of reviews. */
  function UnfinishedIn(seen: Comments, reviews: set<Session>): set<Session> {
    seen.started - seen.finished - reviews
  }

  function StartStep(w: World, s: Step): World
    requires s.PostStart? || s.AddLabel? || s.StopStart?
  {
    if s.pid !in w.starts then w
    else
      match (s, w.starts[s.pid])
      case (PostStart(p), Creating(session)) =>
        w.(started := w.started + {session}, starts := w.starts[p := Posted(session)])
      case (AddLabel(p), Posted(_)) => w.(labelled := true, starts := w.starts - {p})
      case (StopStart(p), _) => w.(starts := w.starts - {p})
      case _ => w
  }

  function CollectorStep(w: World, s: Step): World
    requires w.collector.Some?
  {
    match (s, w.collector.value)
    case (ReadComments, Listed) => w.(collector := Some(CommentsRead(Listing(w))))
    case (ReadReviews, CommentsRead(seen)) =>
      w.(collector := Some(Working(seen.started, seen.finished + w.resultReviews)))
    case (Publish(session, asReview), Working(started, completed)) =>
      if session !in started || session in completed then w
      else
        var v := w.(collector := Some(Working(started, completed + {session})));
        if asReview then v.(resultReviews := w.resultReviews + {session})
        else v.(resultComments := w.resultComments + {session})
    case (FinishWork, Working(started, completed)) =>
      w.(collector := if started <= completed then Some(Rechecking) else None)
    case (RecheckComments, Rechecking) => w.(collector := Some(RecheckedComments(Listing(w))))
    case (RecheckReviews, RecheckedComments(seen)) =>
      w.(collector := if UnfinishedIn(seen, w.resultReviews) == {} then Some(Deleting) else None)
    case (DeleteLabel, Deleting) =>
      // Deleting an absent label is an error, which ends the run.
      if w.labelled then w.(labelled := false, collector := Some(Deleted)) else w.(collector := None)
    case (RereadComments, Deleted) => w.(collector := Some(ReadAgain(Listing(w))))
    case (RereadReviews, ReadAgain(seen)) =>
      w.(collector := if UnfinishedIn(seen, w.resultReviews) == {} then None else Some(Restoring))
    case (RestoreLabel, Restoring) => w.(labelled := true, collector := None)
    case (StopCollector, _) => w.(collector := None)
    case _ => w
  }

  function Next(w: World, s: Step): World {
    if s.PostStart? || s.AddLabel? || s.StopStart? then StartStep(w, s)
    else
      match s
      case BeginStart(p, session) =>
        // The provider names a new session.
        if p in w.starts || session in w.started then w else w.(starts := w.starts[p := Creating(session)])
      case BeginCollector => if w.collector.None? && w.labelled then w.(collector := Some(Listed)) else w
      case Relabel => w.(labelled := true)
      case _ => if w.collector.Some? then CollectorStep(w, s) else w
  }

  function Run(w: World, steps: seq<Step>): World
    decreases |steps|
  {
    if steps == [] then w else Run(Next(w, steps[0]), steps[1..])
  }

  // ----- What every run keeps

  /** Some start run has posted this session and still owes the label. */
  ghost predicate Owed(w: World, session: Session) {
    exists p :: p in w.starts && w.starts[p] == Posted(session)
  }

  /** The collector has taken the label off and will put it back for this session. */
  predicate WillRestore(w: World, session: Session) {
    w.collector.Some? &&
    match w.collector.value
    case Deleted => true
    case ReadAgain(seen) => session in UnfinishedIn(seen, w.resultReviews)
    case Restoring => true
    case _ => false
  }

  /** The label is on, or every unfinished session has somebody who will put it on. */
  ghost predicate Protected(w: World) {
    w.labelled || forall x | x in Unfinished(w) :: Owed(w, x) || WillRestore(w, x)
  }

  ghost predicate OwedByOther(w: World, p: nat, x: Session) {
    exists q :: q != p && q in w.starts && w.starts[q] == Posted(x)
  }

  /** A stop abandons nobody: the label is on, or the session is finished, or
      somebody else will put the label on for it. */
  ghost predicate Harmless(w: World, s: Step) {
    && (s.StopStart? && s.pid in w.starts && w.starts[s.pid].Posted? ==>
          var x := w.starts[s.pid].session;
          w.labelled || x !in Unfinished(w) || OwedByOther(w, s.pid, x) || WillRestore(w, x))
    && (s.StopCollector? ==> w.labelled || forall x | x in Unfinished(w) && WillRestore(w, x) :: Owed(w, x))
  }

  lemma OwedStill(w: World, v: World, session: Session)
    requires Owed(w, session)
    requires forall p | p in w.starts && w.starts[p] == Posted(session) :: p in v.starts && v.starts[p] == w.starts[p]
    ensures Owed(v, session)
  {
    var p :| p in w.starts && w.starts[p] == Posted(session);
    assert p in v.starts && v.starts[p] == Posted(session);
  }

  lemma StartProtects(w: World, s: Step)
    requires Protected(w) && (s.PostStart? || s.AddLabel?)
    ensures Protected(StartStep(w, s))
  {
    var v := StartStep(w, s);
    if !v.labelled {
      forall x | x in Unfinished(v) ensures Owed(v, x) || WillRestore(v, x) {
        if x in Unfinished(w) {
          if !WillRestore(w, x) {
            OwedStill(w, v, x);
          }
        } else {
          assert s.pid in v.starts && v.starts[s.pid] == Posted(x);
        }
      }
    }
  }

  lemma StopStartProtects(w: World, p: nat)
    requires Protected(w) && p in w.starts
    ensures Protected(StartStep(w, StopStart(p))) <==> Harmless(w, StopStart(p))
  {
    var v := w.(starts := w.starts - {p});
    forall x ensures Owed(v, x) <==> OwedByOther(w, p, x) {
      if Owed(v, x) {
        var q :| q in v.starts && v.starts[q] == Posted(x);
        assert q != p && q in w.starts && w.starts[q] == Posted(x);
      }
      if OwedByOther(w, p, x) {
        var q :| q != p && q in w.starts && w.starts[q] == Posted(x);
        assert q in v.starts && v.starts[q] == Posted(x);
      }
    }
    forall x | Owed(w, x) && w.starts[p] != Posted(x) ensures OwedByOther(w, p, x) {
      var q :| q in w.starts && w.starts[q] == Posted(x);
      assert q != p;
    }
  }

  lemma StopCollectorProtects(w: World)
    requires Protected(w) && w.collector.Some?
    ensures Protected(w.(collector := None)) <==> Harmless(w, StopCollector)
  {
    var v := w.(collector := None);
    forall x ensures Owed(v, x) <==> Owed(w, x) {
      if Owed(w, x) {
        OwedStill(w, v, x);
      }
      if Owed(v, x) {
        OwedStill(v, w, x);
      }
    }
  }

  lemma CollectorProtects(w: World, s: Step)
    requires Protected(w) && w.collector.Some? && !s.StopCollector?
    ensures Protected(CollectorStep(w, s))
  {
    var v := CollectorStep(w, s);
    if !v.labelled && !w.labelled {
      forall x | x in Unfinished(v) ensures Owed(v, x) || WillRestore(v, x) {
        if !WillRestore(w, x) {
          OwedStill(w, v, x);
        }
      }
    }
  }

  /** The exact step: only a stop can take the protection away, and it does so
      unless it is harmless. */
  lemma NextProtects(w: World, s: Step)
    requires Protected(w)
    ensures Protected(Next(w, s)) <==> Harmless(w, s)
  {
    var v := Next(w, s);
    if s.StopStart? {
      if s.pid in w.starts {
        StopStartProtects(w, s.pid);
      }
    } else if s.PostStart? || s.AddLabel? {
      StartProtects(w, s);
    } else if s.BeginStart? {
      forall x | x in Unfinished(v) && Owed(w, x) ensures Owed(v, x) {
        OwedStill(w, v, x);
      }
    } else if s.StopCollector? && w.collector.Some? {
      StopCollectorProtects(w);
    } else if !s.BeginCollector? && !s.Relabel? && w.collector.Some? {
      CollectorProtects(w, s);
    }
  }

  /** A run in which every stop is harmless when it happens. */
  ghost predicate HarmlessRun(w: World, steps: seq<Step>)
    decreases |steps|
  {
    steps == [] || (Harmless(w, steps[0]) && HarmlessRun(Next(w, steps[0]), steps[1..]))
  }

  lemma {:induction false} RunProtects(w: World, steps: seq<Step>)
    requires Protected(w) && HarmlessRun(w, steps)
    ensures Protected(Run(w, steps))
    decreases |steps|
  {
    if steps != [] {
      NextProtects(w, steps[0]);
      RunProtects(Next(w, steps[0]), steps[1..]);
    }
  }

  predicate Quiet(w: World) { w.starts == map[] && w.collector.None? }

  /** Once every start and the collector have ended, all in order or by harmless
      stops, a pull request with an unfinished session is labelled, for every
      interleaving of their requests. */
  lemma UnfinishedSessionsAreLabelled(steps: seq<Step>)
    requires HarmlessRun(EMPTY, steps)
    ensures var w := Run(EMPTY, steps);
            Quiet(w) && Unfinished(w) != {} ==> w.labelled
  {
    RunProtects(EMPTY, steps);
    if Quiet(Run(EMPTY, steps)) {
      QuietIsLabelled(Run(EMPTY, steps));
    }
  }

  lemma QuietIsLabelled(w: World)
    requires Quiet(w)
    ensures Protected(w) <==> (Unfinished(w) != {} ==> w.labelled)
  {
    forall x ensures !Owed(w, x) && !WillRestore(w, x) {
    }
  }

  /** With nothing else running, a stop at any point keeps the promise if and only
      if the label is on or no session is unfinished at that moment. */
  lemma LastStopIsExact(w: World, s: Step)
    requires || (s.StopStart? && w.starts.Keys == {s.pid} && w.collector.None?)
             || (s.StopCollector? && w.starts == map[] && w.collector.Some?)
    ensures var v := Next(w, s);
            Quiet(v) && ((Unfinished(v) != {} ==> v.labelled) <==> w.labelled || Unfinished(w) == {})
  {
    var v := Next(w, s);
    assert v.starts == map[];
    assert Unfinished(v) == Unfinished(w);
  }

  // ----- Both kinds of stop do harm

  lemma RunFirst(w: World, s: Step, rest: seq<Step>)
    ensures Run(w, [s] + rest) == Run(Next(w, s), rest)
  {
    assert ([s] + rest)[1..] == rest;
  }

  /** A start that stops between its two requests leaves an unfinished session
      without the label. */
  lemma StoppedStartIsStranded(session: Session)
    ensures var w := Run(EMPTY, [BeginStart(0, session)] + ([PostStart(0)] + ([StopStart(0)] + [])));
            Quiet(w) && session in Unfinished(w) && !w.labelled
  {
    RunFirst(EMPTY, BeginStart(0, session), [PostStart(0)] + ([StopStart(0)] + []));
    var w1 := Next(EMPTY, BeginStart(0, session));
    RunFirst(w1, PostStart(0), [StopStart(0)] + []);
    var w2 := Next(w1, PostStart(0));
    RunFirst(w2, StopStart(0), []);
    assert w2.starts - {0} == map[];
  }

  /** A collector finds nothing unfinished and is about to take the label off. */
  const SEEING: seq<Step> := [Relabel] + ([BeginCollector] + ([ReadComments] + ([ReadReviews] + LOOKING)))
  const LOOKING: seq<Step> := [FinishWork] + ([RecheckComments] + ([RecheckReviews] + []))

  lemma LooksOnce(w: World)
    requires w == EMPTY.(labelled := true, collector := Some(Working({}, {})))
    ensures Run(w, LOOKING) == w.(collector := Some(Deleting))
  {
    RunFirst(w, FinishWork, [RecheckComments] + ([RecheckReviews] + []));
    var u := w.(collector := Some(Rechecking));
    assert Next(w, FinishWork) == u;
    RunFirst(u, RecheckComments, [RecheckReviews] + []);
    var v := w.(collector := Some(RecheckedComments(Comments({}, {}))));
    assert Next(u, RecheckComments) == v;
    RunFirst(v, RecheckReviews, []);
  }

  lemma ReadsNothing(w: World, rest: seq<Step>)
    requires w == EMPTY.(labelled := true, collector := Some(Listed))
    ensures Run(w, [ReadComments] + ([ReadReviews] + rest)) == Run(w.(collector := Some(Working({}, {}))), rest)
  {
    RunFirst(w, ReadComments, [ReadReviews] + rest);
    var v := w.(collector := Some(CommentsRead(Comments({}, {}))));
    assert Next(w, ReadComments) == v;
    RunFirst(v, ReadReviews, rest);
    assert w.resultComments + w.resultReviews == {};
  }

  lemma CollectorIsDeleting()
    ensures Run(EMPTY, SEEING) == EMPTY.(labelled := true, collector := Some(Deleting))
  {
    var rest := [ReadComments] + ([ReadReviews] + LOOKING);
    RunFirst(EMPTY, Relabel, [BeginCollector] + rest);
    var w := EMPTY.(labelled := true);
    RunFirst(w, BeginCollector, rest);
    ReadsNothing(w.(collector := Some(Listed)), LOOKING);
    LooksOnce(w.(collector := Some(Working({}, {}))));
  }

  /** A start then posts and labels in order, and the collector deletes that label
      and stops before it looks again. */
  function Crossing(session: Session): seq<Step> { Starting(session) + ([DeleteLabel] + ([StopCollector] + [])) }

  function Starting(session: Session): seq<Step> { [BeginStart(0, session)] + ([PostStart(0)] + ([AddLabel(0)] + [])) }

  lemma StartsInOrder(w: World, session: Session)
    requires w.starts == map[] && session !in w.started && w.labelled
    ensures Run(w, Starting(session)) == w.(started := w.started + {session})
  {
    RunFirst(w, BeginStart(0, session), [PostStart(0)] + ([AddLabel(0)] + []));
    var w1 := w.(starts := map[0 := Creating(session)]);
    RunFirst(w1, PostStart(0), [AddLabel(0)] + []);
    var w2 := w.(started := w.started + {session}, starts := map[0 := Posted(session)]);
    assert Next(w1, PostStart(0)) == w2;
    RunFirst(w2, AddLabel(0), []);
  }

  lemma {:induction false} RunAppend(w: World, a: seq<Step>, b: seq<Step>)
    ensures Run(w, a + b) == Run(Run(w, a), b)
    decreases |a|
  {
    if a == [] {
      assert a + b == b;
    } else {
      assert (a + b)[1..] == a[1..] + b;
      RunAppend(Next(w, a[0]), a[1..], b);
    }
  }

  lemma CrossingStrands(w: World, session: Session)
    requires w == EMPTY.(labelled := true, collector := Some(Deleting))
    ensures var v := Run(w, Crossing(session));
            Quiet(v) && session in Unfinished(v) && !v.labelled
  {
    RunAppend(w, Starting(session), [DeleteLabel] + ([StopCollector] + []));
    StartsInOrder(w, session);
    assert w.started + {session} == {session};
    var u := w.(started := {session});
    RunFirst(u, DeleteLabel, [StopCollector] + []);
    RunFirst(Next(u, DeleteLabel), StopCollector, []);
  }

  /** A collector that stops between deleting the label and looking again leaves
      a session without it although every start ended in order. */
  lemma StoppedCollectorIsStranded(session: Session)
    ensures var w := Run(EMPTY, SEEING + Crossing(session));
            Quiet(w) && session in Unfinished(w) && !w.labelled
  {
    RunAppend(EMPTY, SEEING, Crossing(session));
    CollectorIsDeleting();
    CrossingStrands(EMPTY.(labelled := true, collector := Some(Deleting)), session);
  }

  // ----- A collector run that nothing disturbs

  const READING: seq<Step> := [BeginCollector] + ([ReadComments] + ([ReadReviews] + ([FinishWork] + REMOVING)))
  const REMOVING: seq<Step> := [RecheckComments] + ([RecheckReviews] + ([DeleteLabel] + CHECKING))
  const CHECKING: seq<Step> := [RereadComments] + ([RereadReviews] + [])

  lemma CheckingEnds(w: World)
    requires w.collector == Some(Deleted) && Unfinished(w) == {}
    ensures Run(w, CHECKING) == w.(collector := None)
  {
    RunFirst(w, RereadComments, [RereadReviews] + []);
    var u := w.(collector := Some(ReadAgain(Listing(w))));
    assert Next(w, RereadComments) == u;
    RunFirst(u, RereadReviews, []);
  }

  lemma RemovingEnds(w: World)
    requires w.labelled && w.collector == Some(Rechecking) && Unfinished(w) == {}
    ensures Run(w, REMOVING) == w.(labelled := false, collector := None)
  {
    RunFirst(w, RecheckComments, [RecheckReviews] + ([DeleteLabel] + CHECKING));
    var u := w.(collector := Some(RecheckedComments(Listing(w))));
    assert Next(w, RecheckComments) == u;
    RunFirst(u, RecheckReviews, [DeleteLabel] + CHECKING);
    var v := w.(collector := Some(Deleting));
    assert Next(u, RecheckReviews) == v;
    RunFirst(v, DeleteLabel, CHECKING);
    CheckingEnds(v.(labelled := false, collector := Some(Deleted)));
  }

  /** Once every session has its result, the next undisturbed run takes the label off. */
  lemma LabelComesOff(w: World)
    requires w.labelled && w.collector.None? && Unfinished(w) == {}
    ensures Run(w, READING) == w.(labelled := false)
  {
    RunFirst(w, BeginCollector, [ReadComments] + ([ReadReviews] + ([FinishWork] + REMOVING)));
    var u := w.(collector := Some(Listed));
    RunFirst(u, ReadComments, [ReadReviews] + ([FinishWork] + REMOVING));
    var v := w.(collector := Some(CommentsRead(Listing(w))));
    assert Next(u, ReadComments) == v;
    RunFirst(v, ReadReviews, [FinishWork] + REMOVING);
    var x := w.(collector := Some(Working(w.started, w.resultComments + w.resultReviews)));
    assert Next(v, ReadReviews) == x;
    RunFirst(x, FinishWork, REMOVING);
    assert w.started <= w.resultComments + w.resultReviews by {
      forall s | s in w.started ensures s in w.resultComments + w.resultReviews {
        assert s !in Unfinished(w);
      }
    }
    RemovingEnds(w.(collector := Some(Rechecking)));
  }
}
