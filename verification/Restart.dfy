/** What a push leaves behind when it stops, and what the next one takes up: the pusher (Replicator/Pusher.cc),
    the checkpoint (Replicator/Checkpoint.cc) and the changes feed (Replicator/ChangesFeed.cc) together. */
module Restarts {
  import opened Common
  import opened SequenceSets
  import opened RemoteSequences
  import opened Checkpoints
  import opened Changes
  import opened FeedLaws
  import ChangesFeeds
  import PushStates
  import Pushers
  import PushOutcomes

  /** After any run of the pusher, in which no revision was queued beside another one of its document, the
      checkpoint is saved; a later replicator reads it and pushes again. Every revision that was being pushed,
      waited for that or was to be tried again, is current and passes, is offered again; so is every one that
      failed for the time being, if no later event of the run settled it; and of what lies within the range the
      pusher had read, nothing is offered but what was being pushed, waited, or ended without being
      completed. */
  method PushAgain(ghost start: Pushers.Session, ghost events: seq<Pushers.PushEvent>, ghost max: nat,
                   json: string -> bool, saved: Checkpoint, world: World, filters: Filters, continuous: bool)
    returns (feed: ChangesFeeds.ChangesFeed)
    requires start.Settled(max) && start.push.Valid(true)
    requires PushOutcomes.Undisturbed(start, events, max)
    requires saved.Valid() && saved.completed == Pushers.RunTo(start, events, max, true).push.completed
    requires forall i :: 0 <= i < |saved.completed| ==> saved.completed[i].end < TWO_64
    requires world.Valid() && !world.observing && filters.active && HasNumerals(json)
    ensures feed.Valid() && feed.world.docs == world.docs
    ensures var s := Pushers.RunTo(start, events, max, true).push;
            && (forall r :: s.InWork(r) && r in world.docs && filters.pass(r) ==> r in feed.given)
            && (forall i, r :: 0 <= i < |events| && FailedAt(start, events, max, i, r) ==>
                  r in world.docs && filters.pass(r) ==> r in feed.given)
            && (CanSave(json, saved.remote) ==>
                  forall c :: c in feed.given && c.sequence <= s.lastRead ==> c.sequence in s.ended || s.Pushes(c.sequence))
  {
    Pushers.RunKeeps(start, events, max, true);
    ghost var s := Pushers.RunTo(start, events, max, true).push;
    feed := ChangesFeeds.Resume(json, saved, world, filters, continuous);
    hide PushStates.PushState.Valid, Pushers.Session.Repeats, PushOutcomes.Undisturbed, FailedAt;
    OffersAgain(json, s, saved.remote, world, filters, feed.checkpoint.completed, feed.given, feed.maxSequence);
    forall i, r | 0 <= i < |events| && FailedAt(start, events, max, i, r) && r in world.docs && filters.pass(r)
      ensures r in feed.given
    {
      FailedStaysPending(start, events, max, i, r);
    }
  }

  /** Event `i` of the run is a failure of `r` for the time being, and nothing settles it afterwards. */
  ghost predicate FailedAt(start: Pushers.Session, events: seq<Pushers.PushEvent>, max: nat, i: nat, r: Change)
    requires start.Settled(max) && i < |events|
  {
    && PushOutcomes.FailsOn(Pushers.RunTo(start, events[..i], max, true), events[i], r)
    && PushOutcomes.LeftOpen(start, events, max, i + 1, r.sequence)
  }

  lemma FailedStaysPending(start: Pushers.Session, events: seq<Pushers.PushEvent>, max: nat, i: nat, r: Change)
    requires start.Settled(max) && start.push.Valid(true) && PushOutcomes.Undisturbed(start, events, max)
    requires i < |events| && FailedAt(start, events, max, i, r)
    ensures !Has(Pushers.RunTo(start, events, max, true).push.completed, r.sequence)
  {
    hide PushStates.PushState.Valid, Pushers.Session.Next, Has, PushOutcomes.FailsOn, PushOutcomes.LeftOpen;
    PushOutcomes.UndisturbedFront(start, events, max, i);
    Pushers.RunKeeps(start, events[..i], max, true);
    PushOutcomes.FailureLeavesPending(Pushers.RunTo(start, events[..i], max, true), events[i], r, max);
    assert events[..i + 1][..i] == events[..i];
    PushOutcomes.StaysPending(start, events, max, i + 1, r.sequence);
  }

  lemma OffersAgain(json: string -> bool, s: PushStates.PushState, remote: RemoteSequence, w: World, f: Filters,
                    marked: Ranges, given: seq<Change>, max: int)
    requires s.Valid(true) && w.Valid()
    requires ChangesFeeds.Resumed(w.docs, f, Kept(json, s.completed, remote), marked, given, max)
    ensures forall r :: s.InWork(r) && r in w.docs && f.pass(r) ==> r in given
    ensures forall r :: r in w.docs && f.pass(r) && !Has(s.completed, r.sequence) ==> r in given
    ensures CanSave(json, remote) ==>
              forall c :: c in given && c.sequence <= s.lastRead ==> c.sequence in s.ended || s.Pushes(c.sequence)
  {
    forall t | t > 0 && !Has(s.completed, t) ensures !Has(Kept(json, s.completed, remote), t) { HasOne(Range(0, 1), t); }
  }
}
