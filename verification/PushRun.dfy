/** The Pusher (Replicator/Pusher.cc) and its changes feed (Replicator/ChangesFeed.cc) at work together, for an
    active replicator, on one checkpoint. */
module PushRuns {
  import opened Common
  import opened SequenceSets
  import opened Changes
  import opened FeedLaws
  import opened ChangesFeeds
  import opened Checkpoints
  import P = Pushers
  import PushStates

  /** The database changes; the pusher asks its feed for changes and takes in what it finds; anything else
      happens to the pusher. */
  datatype PushRunEvent =
    | DbChanges(change: DbEvent)
    | GetsMore(limit: int, failAt: Option<Throw>, arrivals: seq<seq<DbEvent>>)
    | Pushing(e: P.PushEvent)

  /** A feed and a pusher between two events. */
  datatype Pair = Pair(feed: Feeding, push: P.Session)

  /** One event takes `s` to `s'`. The pusher's marks are in the checkpoint the feed looks at. */
  ghost predicate StepsTo(f: Law, continuous: bool, limitOf: nat, s: Pair, e: PushRunEvent, how: Extent,
                          revs: seq<Change>, s': Pair)
    requires s.push.Settled(limitOf)
  {
    match e
    case DbChanges(change) => revs == [] && s' == s.(feed := s.feed.(world := s.feed.world.Next(change)))
    case GetsMore(limit, failAt, arrivals) =>
      if limit <= 0 then revs == [] && how.takes == [] && s' == s
      else
        var found := s'.feed.(completed := Noting(f, s.feed.completed, revs, s.feed.scan.max, s'.feed.scan.max));
        && Asked(limit, failAt, arrivals).Answered(f, continuous, s.feed, how, revs, found)
        && s'.push == s.push.Next(P.Found(revs, Sequences(revs), found.scan.max,
                                           Failed(how, failAt, s.feed.caughtUp && continuous)), limitOf, true)
        && s'.feed.completed == s'.push.push.completed
    case Pushing(e) =>
      && revs == [] && s'.push == (if e.Found? then s.push else s.push.Next(e, limitOf, true))
      && s'.feed == s.feed.(completed := s'.push.push.completed)
  }

  /** A run from state to state. */
  ghost predicate Runs(f: Law, continuous: bool, limitOf: nat, events: seq<PushRunEvent>, answers: seq<seq<Change>>,
                       states: seq<Pair>, hows: seq<Extent>)
  {
    && |answers| == |hows| == |events| && |states| == |events| + 1
    && forall i :: 0 <= i < |events| ==>
         states[i].push.Settled(limitOf)
         && StepsTo(f, continuous, limitOf, states[i], events[i], hows[i], answers[i], states[i + 1])
  }

  /** They work on one checkpoint, from the same position. */
  ghost predicate Together(feed: ChangesFeed, pusher: P.Pusher)
    reads feed, feed.checkpoint, pusher
  {
    && feed.Valid() && pusher.Valid() && feed.filters.active && pusher.active
    && pusher.state.completed == feed.checkpoint.completed && pusher.state.resumed == feed.law.resumed
    && pusher.state.lastRead == feed.maxSequence
  }

  /** A push begins at the local minimum of its checkpoint, just read. */
  method Begin(checkpoint: Checkpoint, world: World, filters: Filters, continuous: bool, maxRevsInFlight: nat)
    returns (feed: ChangesFeed, pusher: P.Pusher)
    requires checkpoint.Valid() && checkpoint.lastChecked == 0
    requires world.Valid() && !world.observing && filters.active
    ensures Together(feed, pusher) && fresh(feed) && fresh(pusher) && feed.checkpoint == checkpoint
    ensures feed.world == world && feed.given == [] && !feed.lost && pusher.state.ended == {}
  {
    hide Holds, Has, Canonical, World.Valid, PushStates.PushState.Valid;
    var start := checkpoint.LocalMinSequence();
    feed := new ChangesFeed(world, start, filters, continuous, checkpoint);
    pusher := new P.Pusher(true, maxRevsInFlight, checkpoint.completed, start);
  }

  ghost function Now(feed: ChangesFeed, pusher: P.Pusher): Pair
    reads feed, feed.checkpoint, pusher
  {
    Pair(feed.Now(), pusher.Now())
  }

  /** `_maybeGetMoreChanges` and `gotChanges`. */
  method GetMore(feed: ChangesFeed, pusher: P.Pusher, limit: int, failAt: Option<Throw>, arrivals: seq<seq<DbEvent>>)
    returns (revs: seq<Change>, ghost how: Extent)
    requires Together(feed, pusher) && limit > 0
    modifies feed, feed.checkpoint, pusher
    ensures Together(feed, pusher)
    ensures StepsTo(feed.law, feed.continuous, pusher.maxRevsInFlight, old(Now(feed, pusher)),
                    GetsMore(limit, failAt, arrivals), how, revs, Now(feed, pusher))
    ensures failAt.None? && |revs| < limit && !feed.lost ==>
              NothingLeft(feed.world.docs, feed.start, feed.law, feed.given)
  {
    hide ChangesFeed.Valid, PushStates.PushState.Valid, Has, FeedEvent.Answered, StepsTo, NothingLeft, P.Session.Next;
    hide Sequences, P.Session.Repeats, PushStates.Fresh;
    ghost var s, before := Now(feed, pusher), feed.checkpoint.completed;
    var err;
    revs, err, how := AskFeed(feed, limit, failAt, arrivals);
    ghost var t := feed.Now();
    var found := P.Found(revs, Sequences(revs), feed.maxSequence, err);
    NotRepeated(pusher.Now(), found);
    Tell(feed, pusher, found, before);
    GotMore(feed.law, feed.continuous, pusher.maxRevsInFlight, s, t, limit, failAt, arrivals, how, revs,
            Now(feed, pusher));
  }

  lemma NotRepeated(s: P.Session, e: P.PushEvent)
    requires e.Found?
    ensures !s.Repeats(e)
  {
  }

  /** What the feed finds is what the pusher can take in. */
  method AskFeed(feed: ChangesFeed, limit: int, failAt: Option<Throw>, arrivals: seq<seq<DbEvent>>)
    returns (revs: seq<Change>, err: bool, ghost how: Extent)
    requires feed.Valid() && limit > 0
    modifies feed, feed.checkpoint
    ensures feed.Valid() && Has(old(feed.checkpoint.completed), 0)
    ensures Asked(limit, failAt, arrivals).Answered(feed.law, feed.continuous, old(feed.Now()), how, revs, feed.Now())
    ensures err == Failed(how, failAt, old(feed.caughtUp) && feed.continuous)
    ensures 0 <= old(feed.maxSequence) <= feed.maxSequence
    ensures PushStates.Fresh(revs, Sequences(revs), old(feed.maxSequence), feed.maxSequence)
    ensures failAt.None? && |revs| < limit && !feed.lost ==>
              NothingLeft(feed.world.docs, feed.start, feed.law, feed.given)
  {
    hide ChangesFeed.Valid, Has, FeedEvent.Answered, NothingLeft, PushStates.Fresh, Ordered, AllAbove, AtMost;
    feed.HandedInOrder();
    ghost var given, floor := feed.given, feed.maxSequence;
    revs, err, how := feed.Ask(limit, failAt, arrivals);
    feed.HandedInOrder();
    P.FeedIsFresh(given, revs, Sequences(revs), floor, feed.maxSequence);
  }

  lemma GotMore(f: Law, continuous: bool, limitOf: nat, s: Pair, t: Feeding, limit: int, failAt: Option<Throw>,
                arrivals: seq<seq<DbEvent>>, how: Extent, revs: seq<Change>, s': Pair)
    requires limit > 0 && s.push.Settled(limitOf)
    requires Asked(limit, failAt, arrivals).Answered(f, continuous, s.feed, how, revs, t)
    requires s'.push == s.push.Next(P.Found(revs, Sequences(revs), t.scan.max,
                                            Failed(how, failAt, s.feed.caughtUp && continuous)), limitOf, true)
    requires s'.feed == t.(completed := s'.push.push.completed)
    ensures StepsTo(f, continuous, limitOf, s, GetsMore(limit, failAt, arrivals), how, revs, s')
  {
    hide Noting, Asking, P.Session.Next;
  }

  /** An event of the pusher, and what it means for the checkpoint. */
  method Tell(feed: ChangesFeed, pusher: P.Pusher, e: P.PushEvent, ghost before: Ranges)
    requires feed.Valid() && pusher.Valid() && feed.filters.active && pusher.active && !pusher.Now().Repeats(e)
    requires pusher.state.resumed == feed.law.resumed && pusher.state.completed == before && Has(before, 0)
    requires if e.Found? then 0 <= pusher.state.lastRead <= e.last == feed.maxSequence
                              && PushStates.Fresh(e.revs, e.sequences, pusher.state.lastRead, e.last)
             else pusher.state.lastRead == feed.maxSequence
    modifies feed.checkpoint`completed, pusher
    ensures Together(feed, pusher)
    ensures pusher.Now() == old(pusher.Now()).Next(e, pusher.maxRevsInFlight, true)
    ensures feed.checkpoint.completed == pusher.state.completed
  {
    hide Holds, Has, Canonical, Agrees, ChangesFeed.Awake, PushStates.PushState.Valid, P.Session.Next, P.Session.Repeats;
    hide PushStates.Fresh;
    Advanced(pusher.Now(), e, pusher.maxRevsInFlight);
    pusher.Step(e);
    feed.checkpoint.completed := pusher.state.completed;
  }

  /** The pusher changes nothing in the checkpoint but what the feed has passed. */
  lemma Advanced(s: P.Session, e: P.PushEvent, limitOf: nat)
    requires s.Settled(limitOf) && s.push.Valid(true) && !s.Repeats(e) && Has(s.push.completed, 0)
    ensures var t := s.Next(e, limitOf, true).push;
            && t.Valid(true) && t.resumed == s.push.resumed && Canonical(t.completed) && Has(t.completed, 0)
            && Agrees(t.resumed, t.completed, t.lastRead)
            && t.lastRead == if e.Found? && e.last >= s.push.lastRead
                                && PushStates.Fresh(e.revs, e.sequences, s.push.lastRead, e.last)
                             then e.last else s.push.lastRead
  {
    P.NextKeeps(s, e, limitOf, true);
    P.NextFields(s, e, limitOf, true);
    var t := s.Next(e, limitOf, true).push;
    hide P.Session.Next, P.Session.Repeats, PushStates.Fresh;
    CheckpointOf(s.push);
    CheckpointOf(t);
    hide PushStates.PushState.Valid, Has, Canonical;
  }

  lemma CheckpointOf(s: PushStates.PushState)
    requires s.Valid(true)
    ensures Canonical(s.completed) && PushStates.Within(s.completed, s.resumed, s.lastRead)
  {
  }

  method Step(feed: ChangesFeed, pusher: P.Pusher, e: PushRunEvent) returns (revs: seq<Change>, ghost how: Extent)
    requires Together(feed, pusher) && (e.Pushing? ==> !pusher.Now().Repeats(e.e))
    modifies feed, feed.checkpoint, pusher
    ensures Together(feed, pusher)
    ensures StepsTo(feed.law, feed.continuous, pusher.maxRevsInFlight, old(Now(feed, pusher)), e, how, revs,
                    Now(feed, pusher))
    ensures e.GetsMore? && e.failAt.None? && |revs| < e.limit && !feed.lost ==>
              NothingLeft(feed.world.docs, feed.start, feed.law, feed.given)
  {
    hide Holds, Has, Canonical, Agrees, PushStates.PushState.Valid, NothingLeft, P.Session.Next, P.Session.Repeats;
    hide FeedEvent.Answered, Noting;
    revs, how := [], Extent(0, false, []);
    match e
    case DbChanges(change) => feed.DbChanged(change);
    case GetsMore(limit, failAt, arrivals) =>
      if limit > 0 { revs, how := GetMore(feed, pusher, limit, failAt, arrivals); }
    case Pushing(e) => if !e.Found? { Tell(feed, pusher, e, feed.checkpoint.completed); }
  }

  /** As the feed sees it. */
  function AsFeed(e: PushRunEvent): FeedEvent
  {
    match e
    case DbChanges(change) => Happened(change)
    case GetsMore(limit, failAt, arrivals) => Asked(limit, failAt, arrivals)
    case Pushing(_) => Pushed(0)
  }

  /** All that happens to the collection in a run. */
  function OccurredIn(events: seq<PushRunEvent>, hows: seq<Extent>): seq<DbEvent>
    requires |hows| == |events|
  {
    if events == [] then []
    else
      var k := |events| - 1;
      OccurredIn(events[..k], hows[..k]) + AsFeed(events[k]).Occurs(hows[k])
  }

  lemma StepChanges(f: Law, continuous: bool, limitOf: nat, s: Pair, e: PushRunEvent, how: Extent, revs: seq<Change>,
                    s': Pair)
    requires s.push.Settled(limitOf) && StepsTo(f, continuous, limitOf, s, e, how, revs, s')
    ensures s'.feed.world.SameCollection(s.feed.world.NextAll(AsFeed(e).Occurs(how)))
    ensures s'.feed.scan.given == s.feed.scan.given + revs
  {
    hide P.Session.Next, Asking, Noting, World.Next;
    if e.GetsMore? && e.limit > 0 {
      var found := s'.feed.(completed := Noting(f, s.feed.completed, revs, s.feed.scan.max, s'.feed.scan.max));
      StepCollection(f, continuous, s.feed, AsFeed(e), how, revs, found);
      StepGives(f, continuous, s.feed, AsFeed(e), how, revs, found);
    } else {
      assert e.DbChanges? ==> [e.change][..0] == [];
      assert s.feed.scan.given + [] == s.feed.scan.given;
    }
  }

  lemma RunsFront(f: Law, continuous: bool, limitOf: nat, events: seq<PushRunEvent>, answers: seq<seq<Change>>,
                  states: seq<Pair>, hows: seq<Extent>)
    requires events != [] && Runs(f, continuous, limitOf, events, answers, states, hows)
    ensures var k := |events| - 1;
            && Runs(f, continuous, limitOf, events[..k], answers[..k], states[..k + 1], hows[..k])
            && states[k].push.Settled(limitOf)
            && StepsTo(f, continuous, limitOf, states[k], events[k], hows[k], answers[k], states[k + 1])
  {
    hide StepsTo;
    var k := |events| - 1;
    assert StepsTo(f, continuous, limitOf, states[k], events[k], hows[k], answers[k], states[k + 1]);
    forall i | 0 <= i < k
      ensures states[..k + 1][i].push.Settled(limitOf)
      ensures StepsTo(f, continuous, limitOf, states[..k + 1][i], events[..k][i], hows[..k][i], answers[..k][i],
                      states[..k + 1][i + 1])
    {
      assert StepsTo(f, continuous, limitOf, states[i], events[i], hows[i], answers[i], states[i + 1]);
    }
  }

  lemma RunsOn(f: Law, continuous: bool, limitOf: nat, events: seq<PushRunEvent>, k: nat, answers: seq<seq<Change>>,
               states: seq<Pair>, hows: seq<Extent>, revs: seq<Change>, s': Pair, how: Extent)
    requires k < |events| && Runs(f, continuous, limitOf, events[..k], answers, states, hows)
    requires states[k].push.Settled(limitOf)
    requires StepsTo(f, continuous, limitOf, states[k], events[k], how, revs, s')
    ensures Runs(f, continuous, limitOf, events[..k + 1], answers + [revs], states + [s'], hows + [how])
  {
    hide StepsTo;
    var es, ss := events[..k + 1], states + [s'];
    forall i | 0 <= i < |es|
      ensures ss[i].push.Settled(limitOf)
      ensures StepsTo(f, continuous, limitOf, ss[i], es[i], (hows + [how])[i], (answers + [revs])[i], ss[i + 1])
    {
      if i < k {
        assert StepsTo(f, continuous, limitOf, states[i], events[..k][i], hows[i], answers[i], states[i + 1]);
      }
    }
  }

  lemma RunChanges(f: Law, continuous: bool, limitOf: nat, events: seq<PushRunEvent>, answers: seq<seq<Change>>,
                   states: seq<Pair>, hows: seq<Extent>)
    requires Runs(f, continuous, limitOf, events, answers, states, hows)
    ensures var s, t := states[0].feed, states[|events|].feed;
            && t.world.SameCollection(s.world.NextAll(OccurredIn(events, hows)))
            && t.scan.given == s.scan.given + Flat(answers)
  {
    RunCollection(f, continuous, limitOf, events, answers, states, hows);
    RunGives(f, continuous, limitOf, events, answers, states, hows);
  }

  lemma {:induction false} RunCollection(f: Law, continuous: bool, limitOf: nat, events: seq<PushRunEvent>,
                                         answers: seq<seq<Change>>, states: seq<Pair>, hows: seq<Extent>)
    requires Runs(f, continuous, limitOf, events, answers, states, hows)
    ensures states[|events|].feed.world.SameCollection(states[0].feed.world.NextAll(OccurredIn(events, hows)))
  {
    if events != [] {
      var k := |events| - 1;
      RunsFront(f, continuous, limitOf, events, answers, states, hows);
      RunCollection(f, continuous, limitOf, events[..k], answers[..k], states[..k + 1], hows[..k]);
      StepChanges(f, continuous, limitOf, states[k], events[k], hows[k], answers[k], states[k + 1]);
      hide Runs, StepsTo, AsFeed, FeedEvent.Occurs;
      states[0].feed.world.ThenChanged(states[k].feed.world, states[k + 1].feed.world, OccurredIn(events[..k], hows[..k]),
                                       AsFeed(events[k]).Occurs(hows[k]));
    }
  }

  lemma {:induction false} RunGives(f: Law, continuous: bool, limitOf: nat, events: seq<PushRunEvent>,
                                    answers: seq<seq<Change>>, states: seq<Pair>, hows: seq<Extent>)
    requires Runs(f, continuous, limitOf, events, answers, states, hows)
    ensures states[|events|].feed.scan.given == states[0].feed.scan.given + Flat(answers)
  {
    if events != [] {
      var k := |events| - 1;
      RunsFront(f, continuous, limitOf, events, answers, states, hows);
      RunGives(f, continuous, limitOf, events[..k], answers[..k], states[..k + 1], hows[..k]);
      StepChanges(f, continuous, limitOf, states[k], events[k], hows[k], answers[k], states[k + 1]);
      hide Runs, StepsTo, AsFeed, World.NextAll, World.SameCollection;
      Regroup(states[0].feed.scan.given, Flat(answers[..k]), answers[k]);
    }
  }

  lemma NothingRun(f: Law, continuous: bool, limitOf: nat, s: Pair)
    ensures Runs(f, continuous, limitOf, [], [], [s], [])
  {
  }

  /** Every eligible document of the collection was handed to the pusher, and is completed in the checkpoint,
      being pushed, waiting for that, or ended without being completed. */
  ghost predicate AllInHand(docs: seq<Change>, start: int, f: Law, given: seq<Change>, push: PushStates.PushState)
  {
    forall c :: c in docs && start < c.sequence && f.Eligible(c) ==> c in given && Accounts(push, c.sequence)
  }

  ghost predicate Accounts(push: PushStates.PushState, t: int)
  {
    Has(push.completed, t) || t in push.ended || push.Pushes(t)
  }

  /** The pusher accounts for all the feed has passed. */
  lemma AllAccounted(s: PushStates.PushState, t: int)
    requires s.Valid(true) && 0 < t <= s.lastRead
    ensures Accounts(s, t)
  {
    hide PushStates.PushState.Owned, PushStates.PushState.Apart, PushStates.PushState.Unique, PushStates.PushState.Newer;
    hide PushStates.PushState.Open, PushStates.PushState.Pushes, Canonical, Has, PushStates.Within;
  }

  lemma NothingMissed(feed: ChangesFeed, pusher: P.Pusher)
    requires Together(feed, pusher) && NothingLeft(feed.world.docs, feed.start, feed.law, feed.given)
    ensures AllInHand(feed.world.docs, feed.start, feed.law, feed.given, pusher.state)
  {
    HoldsSound(feed.world, feed.start, feed.law, feed.State(), feed.caughtUp && feed.continuous, feed.lost);
    hide Law.Eligible, PushStates.PushState.Valid, Accounts, Holds, Agrees, Has;
    forall c | c in feed.world.docs && feed.start < c.sequence && feed.law.Eligible(c)
      ensures c in feed.given && Accounts(pusher.state, c.sequence)
    {
      AllAccounted(pusher.state, c.sequence);
    }
  }

  /** Any run of the two, up to an event that queues a revision beside another one of its document. They go
      from state to state as each event says. In every state each document has at most one revision in the
      pipeline, and the checkpoint has no sequence pending that is not being pushed, waiting or ended; what the
      feed has passed and is eligible was handed to the pusher, unless a failed reading broke that; and when
      the feed finds less than it was asked for, all of the collection is in hand. */
  method Run(feed: ChangesFeed, pusher: P.Pusher, events: seq<PushRunEvent>)
    returns (n: nat, answers: seq<seq<Change>>, ghost states: seq<Pair>, ghost hows: seq<Extent>)
    requires Together(feed, pusher)
    modifies feed, feed.checkpoint, pusher
    ensures Together(feed, pusher) && n <= |events|
    ensures n < |events| ==> events[n].Pushing? && pusher.Now().Repeats(events[n].e)
    ensures Runs(feed.law, feed.continuous, pusher.maxRevsInFlight, events[..n], answers, states, hows)
    ensures states[0] == old(Now(feed, pusher)) && states[n] == Now(feed, pusher)
    ensures feed.world.SameCollection(old(feed.world).NextAll(OccurredIn(events[..n], hows)))
    ensures feed.given == old(feed.given) + Flat(answers)
    ensures !feed.lost ==> Complete(feed.world.docs, feed.start, feed.law, feed.State())
    ensures forall t :: 0 < t <= feed.maxSequence ==> Accounts(pusher.state, t)
    ensures n > 0 && AsFeed(events[n - 1]).Exhausts(answers[n - 1]) && !feed.lost ==>
              AllInHand(feed.world.docs, feed.start, feed.law, feed.given, pusher.state)
  {
    hide Together, SoFar, Runs, P.Session.Repeats, NothingLeft, AllInHand, Accounts, OccurredIn, Flat, Complete;
    ghost var was := Now(feed, pusher);
    n, answers, states, hows := RunOn(feed, pusher, events);
    Outcome(feed, pusher, was, events, n, answers, states, hows);
    AtTheEnd(feed, pusher);
    if NothingLeft(feed.world.docs, feed.start, feed.law, feed.given) { NothingMissed(feed, pusher); }
  }

  /** `n` events have been dealt with. */
  ghost predicate SoFar(feed: ChangesFeed, pusher: P.Pusher, was: Pair, events: seq<PushRunEvent>, n: nat,
                        answers: seq<seq<Change>>, states: seq<Pair>, hows: seq<Extent>)
    reads feed, feed.checkpoint, pusher
  {
    && n <= |events| && |answers| == |hows| == n && |states| == n + 1
    && Runs(feed.law, feed.continuous, pusher.maxRevsInFlight, events[..n], answers, states, hows)
    && states[0] == was && states[n] == Now(feed, pusher)
    && (n > 0 && AsFeed(events[n - 1]).Exhausts(answers[n - 1]) && !feed.lost ==>
          NothingLeft(feed.world.docs, feed.start, feed.law, feed.given))
  }

  method RunOn(feed: ChangesFeed, pusher: P.Pusher, events: seq<PushRunEvent>)
    returns (n: nat, answers: seq<seq<Change>>, ghost states: seq<Pair>, ghost hows: seq<Extent>)
    requires Together(feed, pusher)
    modifies feed, feed.checkpoint, pusher
    ensures Together(feed, pusher) && SoFar(feed, pusher, old(Now(feed, pusher)), events, n, answers, states, hows)
    ensures n <= |events| && (n < |events| ==> Stops(pusher, events[n]))
  {
    n, answers, states, hows := 0, [], [Now(feed, pusher)], [];
    NothingRun(feed.law, feed.continuous, pusher.maxRevsInFlight, Now(feed, pusher));
    assert events[..0] == [];
    assert SoFar(feed, pusher, Now(feed, pusher), events, n, answers, states, hows);
    hide Together, SoFar, Runs, Stops;
    while n < |events| && !Stops(pusher, events[n])
      invariant Together(feed, pusher) && n <= |events|
      invariant SoFar(feed, pusher, old(Now(feed, pusher)), events, n, answers, states, hows)
    {
      answers, states, hows := StepOn(feed, pusher, events, n, old(Now(feed, pusher)), answers, states, hows);
      n := n + 1;
    }
  }

  method StepOn(feed: ChangesFeed, pusher: P.Pusher, events: seq<PushRunEvent>, n: nat, ghost was: Pair,
                answers: seq<seq<Change>>, ghost states: seq<Pair>, ghost hows: seq<Extent>)
    returns (answers': seq<seq<Change>>, ghost states': seq<Pair>, ghost hows': seq<Extent>)
    requires Together(feed, pusher) && n < |events| && !Stops(pusher, events[n])
    requires SoFar(feed, pusher, was, events, n, answers, states, hows)
    modifies feed, feed.checkpoint, pusher
    ensures Together(feed, pusher) && SoFar(feed, pusher, was, events, n + 1, answers', states', hows')
  {
    SettledNow(feed, pusher);
    Outcome(feed, pusher, was, events, n, answers, states, hows);
    hide Together, SoFar, Runs, StepsTo, P.Session.Repeats, NothingLeft, OccurredIn, Flat;
    var revs;
    ghost var how;
    revs, how := Step(feed, pusher, events[n]);
    OneMore(feed, pusher, was, events, n, answers, states, hows, revs, how);
    answers', states', hows' := answers + [revs], states + [Now(feed, pusher)], hows + [how];
  }

  lemma OneMore(feed: ChangesFeed, pusher: P.Pusher, was: Pair, events: seq<PushRunEvent>, n: nat,
                answers: seq<seq<Change>>, states: seq<Pair>, hows: seq<Extent>, revs: seq<Change>, how: Extent)
    requires n < |events| && |answers| == |hows| == n && |states| == n + 1 && states[0] == was
    requires Runs(feed.law, feed.continuous, pusher.maxRevsInFlight, events[..n], answers, states, hows)
    requires states[n].push.Settled(pusher.maxRevsInFlight)
    requires StepsTo(feed.law, feed.continuous, pusher.maxRevsInFlight, states[n], events[n], how, revs,
                     Now(feed, pusher))
    requires AsFeed(events[n]).Exhausts(revs) && !feed.lost ==>
               NothingLeft(feed.world.docs, feed.start, feed.law, feed.given)
    ensures SoFar(feed, pusher, was, events, n + 1, answers + [revs], states + [Now(feed, pusher)], hows + [how])
  {
    hide Runs, StepsTo, NothingLeft;
    RunsOn(feed.law, feed.continuous, pusher.maxRevsInFlight, events, n, answers, states, hows, revs,
           Now(feed, pusher), how);
  }

  lemma SettledNow(feed: ChangesFeed, pusher: P.Pusher)
    requires Together(feed, pusher)
    ensures Now(feed, pusher).push.Settled(pusher.maxRevsInFlight)
  {
  }

  lemma Outcome(feed: ChangesFeed, pusher: P.Pusher, was: Pair, events: seq<PushRunEvent>, n: nat,
                answers: seq<seq<Change>>, states: seq<Pair>, hows: seq<Extent>)
    requires SoFar(feed, pusher, was, events, n, answers, states, hows)
    ensures n <= |events| && |answers| == |hows| == n && |states| == n + 1
    ensures Runs(feed.law, feed.continuous, pusher.maxRevsInFlight, events[..n], answers, states, hows)
    ensures states[0] == was && states[n] == Now(feed, pusher)
    ensures feed.world.SameCollection(was.feed.world.NextAll(OccurredIn(events[..n], hows)))
    ensures feed.given == was.feed.scan.given + Flat(answers)
    ensures n > 0 && AsFeed(events[n - 1]).Exhausts(answers[n - 1]) && !feed.lost ==>
              NothingLeft(feed.world.docs, feed.start, feed.law, feed.given)
  {
    hide Runs, NothingLeft, OccurredIn, Flat;
    RunChanges(feed.law, feed.continuous, pusher.maxRevsInFlight, events[..n], answers, states, hows);
  }

  predicate Stops(pusher: P.Pusher, e: PushRunEvent)
    reads pusher
  {
    e.Pushing? && P.Session(pusher.state, pusher.deltasOK, pusher.deltaOK, pusher.retried).Repeats(e.e)
  }

  lemma AtTheEnd(feed: ChangesFeed, pusher: P.Pusher)
    requires Together(feed, pusher)
    ensures !feed.lost ==> Complete(feed.world.docs, feed.start, feed.law, feed.State())
    ensures forall t :: 0 < t <= feed.maxSequence ==> Accounts(pusher.state, t)
  {
    if !feed.lost {
      HoldsComplete(feed.world, feed.start, feed.law, feed.State(), feed.caughtUp && feed.continuous);
    }
    hide PushStates.PushState.Valid, Accounts, Holds, Agrees, Has, Complete;
    forall t | 0 < t <= feed.maxSequence ensures Accounts(pusher.state, t) { AllAccounted(pusher.state, t); }
  }
}
