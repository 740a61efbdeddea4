/** What becomes of the revisions an active pusher has at hand, told by the events of a run: by what the feed found,
    what the peer answers and replies, and what the database has. (Replicator/Pusher.cc, Pusher+Revs.cc) */
module PushOutcomes {
  import opened Common
  import opened SequenceSets
  import opened Changes
  import opened PushStates
  import opened PushLedger
  import opened Pushers

  // ---- The events that complete a sequence

  /** The answer to a change that the peer wants: an ancestor list or status 0, or no entry at all where it is the
      answer to a proposal, which is what an active pusher makes. */
  predicate Wanted(response: Response, active: bool)
  {
    response == Wants || (response == Missing && active)
  }

  /** The answer to a proposal that is to be made again at once. */
  predicate AskedAgain(response: Response, active: bool)
  {
    response == Conflict(NewerAncestor) && active
  }

  /** The answer beside the `j`th change of a list. */
  function AnswerTo(responses: seq<Response>, j: nat): Response
  {
    if j < |responses| then responses[j] else Missing
  }

  /** A reply after which a revision is not tried again: it was taken, or refused for good. */
  predicate Final(reply: Reply, again: bool, delta: bool)
  {
    match reply
    case Synced => true
    case Rejected => true
    case Transient => false
    case Forbidden => again
    case DeltaFailed => !delta
  }

  /** The revision that waits for its document `d` is dropped, since it is not to be pushed any more. */
  predicate DropsNext(next: Docs, db: Database, d: DocID, t: int)
  {
    d in next && next[d].sequence == t && !db.push(next[d])
  }

  /** A queued revision turns out to have no body to send. */
  predicate SentOff(next: Docs, db: Database, r: Change, t: int)
  {
    match db.send(r)
    case Gone => t == r.sequence || DropsNext(next, db, r.docID, t)
    case NotEncrypted => t == r.sequence || DropsNext(next, db, r.docID, t)
    case NoDocument => DropsNext(next, db, r.docID, t)
    case Sent => false
    case EncryptorBusy => false
  }

  ghost predicate AnySentOff(queue: seq<Change>, next: Docs, db: Database, t: int)
  {
    exists r :: r in queue && SentOff(next, db, r, t)
  }

  /** A change is answered in a way that ends it. */
  predicate AnsweredOff(s: PushState, r: Change, response: Response, db: Database, t: int)
  {
    && !Wanted(response, true) && !AskedAgain(response, true)
    && (t == r.sequence || DropsNext(s.next, db, r.docID, t)
        || (response == Conflict(Later) && r.docID in s.conflicts && s.conflicts[r.docID].sequence == t < r.sequence))
  }

  /** A revision is replied to in a way that ends it. */
  ghost predicate RepliedOff(s: PushState, r: Change, reply: Reply, db: Database, again: bool, delta: bool, t: int)
  {
    || (t == r.sequence && Final(reply, again, delta))
    || DropsNext(s.next, db, r.docID, t)
    || AnySentOff(if reply == DeltaFailed && delta then [r] + s.queue else s.queue, s.next, db, t)
  }

  /** A newer change of the same document was found. */
  ghost predicate Overtaken(older: Docs, changes: seq<Change>, t: int)
  {
    exists x, y :: (x in changes || Held(older, x)) && y in changes && Overtakes(x, y) && x.sequence == t
  }

  predicate Overtakes(x: Change, y: Change) { x.docID == y.docID && x.sequence < y.sequence }

  /** Event `e` may complete sequence `t`: the feed passed it by, or found a newer change; the peer has the
      revision, does not want it, refuses it, or it conflicts; the reply to it is final; its body is gone or cannot
      be encrypted; or it waited, and is not to be pushed any more. */
  ghost predicate Settles(s: Session, e: PushEvent, t: int)
  {
    match e
    case Found(revs, sequences, last, err) =>
      (s.push.lastRead < t <= last && t !in sequences) || (!err && Overtaken(s.push.next, revs, t))
    case Answer(i, isError, responses, _, db, _) =>
      && i < |s.push.announced|
      && var list := s.push.announced[i];
         if isError then exists r :: r in list && DropsNext(s.push.next, db, r.docID, t)
         else
           || (exists j :: 0 <= j < |list| && AnsweredOff(s.push, list[j], AnswerTo(responses, j), db, t))
           || AnySentOff(s.push.queue + list, s.push.next, db, t)
    case Delivered(_, db, _) => AnySentOff(s.push.queue, s.push.next, db, t)
    case Replied(i, reply, db, _) =>
      && i < |s.push.awaiting|
      && var r := s.push.awaiting[i]; RepliedOff(s.push, r, reply, db, r in s.retried, r in s.deltaOK, t)
    case Idle => Overtaken(map[], s.push.retry, t)
    case RemoteChanged(d, how) =>
      d in s.push.conflicts && s.push.conflicts[d].sequence == t && (how == LocalChanged || s.push.Superseded(d))
  }

  ghost predicate Gains(a: Ranges, b: Ranges, t: int) { Has(b, t) && !Has(a, t) }

  // ---- Steps

  lemma FinishedGains(s: PushState, completed: bool, db: Database, t: int)
    requires s.hand != [] && s.Valid(true)
    ensures var r, s' := s.hand[0], Finished(s, completed, db, true);
            && (Gains(s.completed, s'.completed, t) ==>
                  (completed && t == r.sequence) || DropsNext(s.next, db, r.docID, t))
            && (Has(s.completed, t) ==> Has(s'.completed, t)) && (completed ==> Has(s'.completed, r.sequence))
            && s'.next == s.next - {r.docID} && s'.conflicts == s.conflicts && s'.queue == s.queue
  {
    var r := s.hand[0];
    FinishOwned(s, completed, !completed, Waiting(s, db), true);
    assert s.Knows(r);
    if r.docID in s.next {
      assert s.Knows(s.next[r.docID]) && Held(s.next, s.next[r.docID]) && s.InWork(s.next[r.docID]);
    }
    FinishMarks(s, completed, !completed, Waiting(s, db));
    hide Has, Canonical, Add, Remove, PushState.Owned, PushState.Newer, PushState.Accounted, Within;
  }

  /** What is left of what waits. */
  ghost predicate Fewer(a: Docs, b: Docs) { forall d :: d in a ==> d in b && a[d] == b[d] }

  lemma SendOneGains(s: PushState, db: Database, t: int)
    requires s.hand != [] && s.Valid(true)
    ensures var s' := SendOne(s, db, true);
            && (Gains(s.completed, s'.completed, t) ==> SentOff(s.next, db, s.hand[0], t))
            && Fewer(s'.next, s.next)
  {
    hide Finished, PushState.Valid, Has;
    FinishedGains(s, true, db, t);
    FinishedGains(s, false, db, t);
    GoneGains(s, db, t);
  }

  /** A revision that is gone is completed, though it counts as ended. */
  lemma GoneGains(s: PushState, db: Database, t: int)
    requires s.hand != [] && s.Valid(true)
    ensures var s' := s.Finish(true, true, Waiting(s, db), true);
            && (Gains(s.completed, s'.completed, t) ==>
                  t == s.hand[0].sequence || DropsNext(s.next, db, s.hand[0].docID, t))
            && (Has(s.completed, t) ==> Has(s'.completed, t)) && Fewer(s'.next, s.next)
  {
    FinishedGains(s, true, db, t);
    EndsOnly(s, Waiting(s, db));
    FewerNext(s, Waiting(s, db));
    hide Has, PushState.Finish, PushState.Valid, Waiting, Fewer;
  }

  /** That it counts as ended makes no other difference. */
  lemma EndsOnly(s: PushState, push: bool)
    requires s.hand != []
    ensures s.Finish(true, true, push, true).completed == s.Finish(true, false, push, true).completed
  {
    hide Add, Remove;
  }

  lemma FewerNext(s: PushState, push: bool)
    requires s.hand != []
    ensures Fewer(s.Finish(true, true, push, true).next, s.next)
  {
    hide Add, Remove;
  }

  lemma {:induction false} SendAllGains(s: PushState, max: nat, throttled: bool, db: Database, t: int)
    requires s.hand == [] && s.Valid(true) && Gains(s.completed, SendAll(s, max, throttled, db, true).completed, t)
    ensures AnySentOff(s.queue, s.next, db, t)
    decreases |s.queue|
  {
    hide PushState.Valid, SendOne, Has, SentOff;
    if |s.sending| < max && !throttled && s.queue != [] {
      var u := s.Dequeue();
      DequeueMoves(s);
      MovedKeeps(s, u, true);
      SendOneKeeps(u, db, true);
      SendOneGains(u, db, t);
      var v := SendOne(u, db, true);
      if !Has(v.completed, t) {
        SendAllGains(v, max, throttled, db, t);
        AnySentOffIn(v.queue, s.queue, v.next, s.next, db, t);
      } else {
        assert s.queue[0] in s.queue;
      }
    }
  }

  lemma FewerSentOff(a: Docs, b: Docs, db: Database, r: Change, t: int)
    requires Fewer(a, b) && SentOff(a, db, r, t)
    ensures SentOff(b, db, r, t)
  {
  }

  lemma AnySentOffIn(q: seq<Change>, q': seq<Change>, a: Docs, b: Docs, db: Database, t: int)
    requires Fewer(a, b) && (forall r :: r in q ==> r in q') && AnySentOff(q, a, db, t)
    ensures AnySentOff(q', b, db, t)
  {
    hide SentOff;
    var r :| r in q && SentOff(a, db, r, t);
    FewerSentOff(a, b, db, r, t);
  }

  lemma {:induction false} AllGivenUpGains(s: PushState, db: Database, t: int)
    requires s.Valid(true) && Gains(s.completed, AllGivenUp(s, db, true).completed, t)
    ensures exists r :: r in s.hand && DropsNext(s.next, db, r.docID, t)
    decreases |s.hand|
  {
    hide PushState.Valid, Finished, Has;
    if s.hand != [] {
      var u := Finished(s, false, db, true);
      FinishedKeeps(s, false, db, true);
      FinishedGains(s, false, db, t);
      assert s.hand[0] in s.hand;
      if !Has(u.completed, t) {
        AllGivenUpGains(u, db, t);
        var r :| r in u.hand && DropsNext(u.next, db, r.docID, t);
        assert r in s.hand;
      }
    }
  }

  lemma RespondGains(s: PushState, response: Response, db: Database, t: int)
    requires s.hand != [] && s.Valid(true)
    ensures var r, s' := s.hand[0], Respond(s, response, db, true);
            && (Gains(s.completed, s'.completed, t) ==> AnsweredOff(s, r, response, db, t))
            && Fewer(s'.next, s.next)
            && forall d :: d in s'.conflicts ==>
                 || (d in s.conflicts && s.conflicts[d] == s'.conflicts[d])
                 || (s'.conflicts[d] == r && Has(s'.completed, r.sequence))
  {
    hide Finished, PushState.Valid, Has, Add;
    FinishedGains(s, true, db, t);
    FinishedGains(s, true, db, s.hand[0].sequence);
    if response == Conflict(Later) {
      FinishedKeeps(s, true, db, true);
      NoteGains(Finished(s, true, db, true), s.hand[0], t);
      NoteGains(Finished(s, true, db, true), s.hand[0], s.hand[0].sequence);
    }
  }

  lemma NoteGains(s: PushState, r: Change, t: int)
    requires s.Valid(true)
    ensures var s' := s.Note(r, true);
            && (Gains(s.completed, s'.completed, t) ==>
                  r.docID in s.conflicts && s.conflicts[r.docID].sequence == t < r.sequence)
            && (Has(s.completed, t) ==> Has(s'.completed, t))
  {
    if r.docID in s.conflicts {
      assert s.Knows(s.conflicts[r.docID]);
      AddAtCorrect(s.completed, s.conflicts[r.docID].sequence);
    }
    hide Has, Canonical, AddAt, PushState.Owned, PushState.Newer, PushState.Accounted, PushState.Open, Within;
  }

  lemma {:induction false} RespondAllGains(s: PushState, responses: seq<Response>, db: Database, t: int)
    returns (j: nat)
    requires s.Valid(true) && Gains(s.completed, RespondAll(s, responses, db, true).completed, t)
    ensures j < |s.hand| && AnsweredOff(s, s.hand[j], AnswerTo(responses, j), db, t)
    decreases |s.hand|
  {
    hide PushState.Valid, Respond, Has;
    var response := AnswerTo(responses, 0);
    var rest := if responses == [] then [] else responses[1..];
    var u := Respond(s, response, db, true);
    RespondKeeps(s, response, db, true);
    RespondGains(s, response, db, t);
    if Has(u.completed, t) {
      j := 0;
    } else {
      var k := RespondAllGains(u, rest, db, t);
      j := k + 1;
      assert AnswerTo(rest, k) == AnswerTo(responses, j);
    }
  }

  lemma AfterReplyGains(s: PushState, reply: Reply, again: bool, delta: bool, db: Database, t: int)
    requires s.hand != [] && s.Valid(true)
    ensures var r, s' := s.hand[0], AfterReply(s, reply, again, delta, db, true);
            && (Gains(s.completed, s'.completed, t) ==>
                  (t == r.sequence && Final(reply, again, delta)) || DropsNext(s.next, db, r.docID, t))
            && Fewer(s'.next, s.next)
  {
    hide Finished, PushState.Valid, Has;
    FinishedGains(s, true, db, t);
    FinishedGains(s, false, db, t);
  }

  lemma TakeInGains(s: PushState, t: int)
    requires s.inbox != [] && s.Valid(true)
    ensures var r, s' := s.inbox[0], s.TakeIn(true);
            && (Gains(s.completed, s'.completed, t) ==>
                  r.docID in s.next && s.next[r.docID].docID == r.docID && s.next[r.docID].sequence == t < r.sequence)
            && (forall x :: Held(s'.next, x) ==> Held(s.next, x) || x == r)
  {
    var r := s.inbox[0];
    assert r in s.inbox;
    if r.docID in s.docs && r.docID in s.next { NextIsOlder(s, r); }
    NextAfter(s);
    hide PushState.Valid, Has, Add, Held;
  }

  lemma NextAfter(s: PushState)
    requires s.inbox != []
    ensures forall x :: Held(s.TakeIn(true).next, x) ==> Held(s.next, x) || x == s.inbox[0]
  {
    hide Add;
  }

  lemma NextIsOlder(s: PushState, r: Change)
    requires s.Valid(true) && r in s.inbox && r.docID in s.next
    ensures var x := s.next[r.docID];
            && x.docID == r.docID && x.sequence < r.sequence
            && forall t :: Has(Add(s.completed, x.sequence), t) <==> Has(s.completed, t) || t == x.sequence
  {
    var x := s.next[r.docID];
    assert s.Knows(x);
    AddAtCorrect(s.completed, x.sequence);
    hide Has, Canonical, AddAt, PushState.Owned, PushState.Accounted, PushState.Open, Within;
  }

  lemma {:induction false} TakeAllGains(s: PushState, t: int)
    requires s.Valid(true) && Gains(s.completed, TakeAll(s, true).completed, t)
    ensures Overtaken(s.next, s.inbox, t)
    decreases |s.inbox|
  {
    hide PushState.Valid, PushState.TakeIn, Has;
    if s.inbox != [] {
      var u, r := s.TakeIn(true), s.inbox[0];
      TakeInKeeps(s, true);
      TakeInGains(s, t);
      InboxShrinks(s);
      assert r in s.inbox;
      if Has(u.completed, t) {
        var x := s.next[r.docID];
        assert Held(s.next, x) && Overtakes(x, r);
      } else {
        TakeAllGains(u, t);
        var x, y :| (x in u.inbox || Held(u.next, x)) && y in u.inbox && Overtakes(x, y) && x.sequence == t;
        assert (x in s.inbox || Held(s.next, x)) && y in s.inbox && Overtakes(x, y);
      }
    }
  }

  lemma InboxShrinks(s: PushState)
    requires s.inbox != []
    ensures s.TakeIn(true).inbox == s.inbox[1..]
  {
  }

  lemma FoundGains(s: PushState, revs: seq<Change>, sequences: seq<int>, last: int, err: bool, t: int)
    requires s.Valid(true) && s.inbox == [] && 0 <= s.lastRead <= last && Fresh(revs, sequences, s.lastRead, last)
    requires Gains(s.completed, Received(s, revs, sequences, last, err, true).completed, t)
    ensures (s.lastRead < t <= last && t !in sequences) || (!err && Overtaken(s.next, revs, t))
  {
    var u := s.Receive(revs, sequences, last, true);
    ReceiveMarksOf(s, revs, sequences, last);
    ReceiveKeeps(s, revs, sequences, last, true);
    hide PushState.Valid, Has, Fresh, TakeAll, Apply, Overtaken;
    if !Has(u.completed, t) && !err { TakeAllGains(u, t); }
  }

  lemma ReceiveMarksOf(s: PushState, revs: seq<Change>, sequences: seq<int>, last: int)
    requires s.Valid(true) && 0 <= s.lastRead <= last && Fresh(revs, sequences, s.lastRead, last)
    ensures var c := s.Receive(revs, sequences, last, true).completed;
            forall t :: Has(c, t) <==> t !in sequences && (s.lastRead < t <= last || Has(s.completed, t))
  {
    ReceiveMarks(s, revs, sequences, last);
    hide Has, PushState.Receive, Fresh, Canonical;
  }

  lemma IdleGains(s: PushState, t: int)
    requires s.Valid(true) && s.inbox == [] && Gains(s.completed, Retried(s, true).completed, t)
    ensures Overtaken(map[], s.retry, t)
  {
    if s.retry != [] && !Busy(s) {
      var u := s.RetryAll();
      RetryAllKeeps(s, true);
      NoneWaits(s);
      hide PushState.Valid, Has, TakeAll;
      TakeAllGains(u, t);
    }
  }

  lemma NoneWaits(s: PushState)
    requires s.Valid(true) && s.docs == map[]
    ensures s.next == map[]
  {
    hide PushState.Owned, PushState.Newer, PushState.Open, PushState.Accounted, PushState.Unique;
    assert forall d :: d in s.next ==> d in s.docs;
  }

  lemma AncestorGains(s: PushState, d: DocID, how: AncestorCase, t: int)
    requires s.Valid(true) && Gains(s.completed, AfterAncestor(s, d, how, true).completed, t)
    ensures d in s.conflicts && s.conflicts[d].sequence == t && (how == LocalChanged || s.Superseded(d))
  {
    if d in s.conflicts {
      assert s.Knows(s.conflicts[d]);
      AddAtCorrect(s.completed, s.conflicts[d].sequence);
      RemoveCorrect(s.completed, s.conflicts[d].sequence);
      hide Has, Canonical, AddAt, Remove, PushState.Owned, PushState.Accounted, PushState.Open, PushState.Newer, Within;
      hide PushState.Superseded;
    }
  }

  // ---- Events and runs

  lemma AnswerGains(s: Session, e: PushEvent, max: nat, t: int)
    requires s.Settled(max) && s.push.Valid(true) && e.Answer? && e.i < |s.push.announced|
    requires Gains(s.push.completed, s.Next(e, max, true).push.completed, t)
    ensures Settles(s, e, t)
  {
    var u, list := s.push.Answered(e.i), s.push.announced[e.i];
    AnsweredMoves(s.push, e.i);
    MovedKeeps(s.push, u, true);
    hide PushState.Valid, Has, RespondAll, SendAll, AllGivenUp, AnsweredOff, AnySentOff;
    if e.isError {
      AllGivenUpGains(u, e.db, t);
    } else {
      var v := RespondAll(u, e.responses, e.db, true);
      RespondAllKeeps(u, e.responses, e.db, true);
      if Has(v.completed, t) {
        var j := RespondAllGains(u, e.responses, e.db, t);
        AnsweredOffSame(u, s.push, list[j], AnswerTo(e.responses, j), e.db, t);
      } else {
        SendAllGains(v, max, e.throttled, e.db, t);
        RespondAllQueues(u, e.responses, e.db, true);
        RespondAllFewer(u, e.responses, e.db);
        AnySentOffIn(v.queue, s.push.queue + list, v.next, s.push.next, e.db, t);
      }
    }
  }

  lemma AnsweredOffSame(a: PushState, b: PushState, r: Change, response: Response, db: Database, t: int)
    requires a.next == b.next && a.conflicts == b.conflicts
    ensures AnsweredOff(a, r, response, db, t) <==> AnsweredOff(b, r, response, db, t)
  {
  }

  lemma {:induction false} RespondAllFewer(s: PushState, responses: seq<Response>, db: Database)
    requires s.Valid(true)
    ensures Fewer(RespondAll(s, responses, db, true).next, s.next)
    decreases |s.hand|
  {
    hide PushState.Valid, Respond, Has;
    if s.hand != [] {
      var response := AnswerTo(responses, 0);
      RespondKeeps(s, response, db, true);
      RespondGains(s, response, db, 0);
      RespondAllFewer(Respond(s, response, db, true), if responses == [] then [] else responses[1..], db);
    }
  }

  /** What a reply comes to. */
  lemma ReplyIs(s: Session, e: PushEvent, max: nat)
    requires s.Settled(max) && e.Replied? && e.i < |s.push.awaiting|
    ensures var r, u := s.push.awaiting[e.i], s.push.Replied(e.i);
            && u.hand == [r] && u.completed == s.push.completed && u.next == s.push.next && u.queue == s.push.queue
            && s.Next(e, max, true).push
               == SendAll(AfterReply(u, e.reply, r in s.retried, r in s.deltaOK, e.db, true), max, e.throttled, e.db, true)
            && (s.Repeats(e) <==> e.reply.DeltaFailed? && r in s.deltaOK && Waiting(u, e.db))
  {
    hide SendAll, AfterReply;
  }

  lemma ReplyGains(s: Session, e: PushEvent, max: nat, t: int)
    requires s.Settled(max) && s.push.Valid(true) && e.Replied? && e.i < |s.push.awaiting| && !s.Repeats(e)
    requires Gains(s.push.completed, s.Next(e, max, true).push.completed, t)
    ensures Settles(s, e, t)
  {
    ReplyIs(s, e, max);
    var u, r := s.push.Replied(e.i), s.push.awaiting[e.i];
    RepliedMoves(s.push, e.i);
    MovedKeeps(s.push, u, true);
    hide Session.Next, Session.Repeats, PushState.Replied, PushState.Valid, Has, Waiting, Settles;
    ReplyGainsFrom(u, r, e, max, r in s.retried, r in s.deltaOK, t);
    SettlesReply(s, e, t);
  }

  lemma SettlesReply(s: Session, e: PushEvent, t: int)
    requires e.Replied? && e.i < |s.push.awaiting|
    ensures var r := s.push.awaiting[e.i];
            Settles(s, e, t) <==> RepliedOff(s.push, r, e.reply, e.db, r in s.retried, r in s.deltaOK, t)
  {
    hide AnySentOff, DropsNext, Final;
  }

  lemma ReplyGainsFrom(u: PushState, r: Change, e: PushEvent, max: nat, again: bool, delta: bool, t: int)
    requires u.hand == [r] && u.Valid(true) && e.Replied? && !(e.reply.DeltaFailed? && delta && Waiting(u, e.db))
    requires var v := AfterReply(u, e.reply, again, delta, e.db, true);
             Gains(u.completed, SendAll(v, max, e.throttled, e.db, true).completed, t)
    ensures RepliedOff(u, r, e.reply, e.db, again, delta, t)
  {
    hide *;
    AfterReplyGains(u, e.reply, again, delta, e.db, t);
    ReplyExactly(u, e.reply, again, delta, e.db, true);
    QueueAfter(u, e.reply, again, delta, e.db);
    ThenSends(u, AfterReply(u, e.reply, again, delta, e.db, true), r, e, max, again, delta, t);
  }

  lemma QueueAfter(u: PushState, reply: Reply, again: bool, delta: bool, db: Database)
    requires u.hand != []
    ensures AfterReply(u, reply, again, delta, db, true).queue
         == if reply == DeltaFailed && delta then [u.hand[0]] + u.queue else u.queue
  {
    hide AfterReply;
    assert [] + u.queue == u.queue;
  }

  lemma ThenSends(u: PushState, v: PushState, r: Change, e: PushEvent, max: nat, again: bool, delta: bool, t: int)
    requires e.Replied? && v.hand == [] && v.Valid(true) && Fewer(v.next, u.next)
    requires v.queue == if e.reply == DeltaFailed && delta then [r] + u.queue else u.queue
    requires Gains(u.completed, v.completed, t) ==>
               (t == r.sequence && Final(e.reply, again, delta)) || DropsNext(u.next, e.db, r.docID, t)
    requires Gains(u.completed, SendAll(v, max, e.throttled, e.db, true).completed, t)
    ensures RepliedOff(u, r, e.reply, e.db, again, delta, t)
  {
    hide PushState.Valid, Has, SendAll, DropsNext, Final, AnySentOff;
    if !Has(v.completed, t) {
      SendAllGains(v, max, e.throttled, e.db, t);
      AnySentOffIn(v.queue, v.queue, v.next, u.next, e.db, t);
    }
  }

  /** A sequence is completed only by an event that settles it. */
  lemma NextCompletes(s: Session, e: PushEvent, max: nat, t: int)
    requires s.Settled(max) && s.push.Valid(true) && !s.Repeats(e)
    requires Gains(s.push.completed, s.Next(e, max, true).push.completed, t)
    ensures Settles(s, e, t)
  {
    hide PushState.Valid, Session.Answer, Session.Reply, SendAll, Retried, AfterAncestor, Received, Has, Session.Repeats;
    hide AnySentOff, Overtaken, AnsweredOff;
    match e
    case Found(revs, sequences, last, err) =>
      if last >= s.push.lastRead && Fresh(revs, sequences, s.push.lastRead, last) {
        FoundGains(s.push, revs, sequences, last, err, t);
      }
    case Answer(i, _, _, _, _, _) => if i < |s.push.announced| { AnswerGains(s, e, max, t); }
    case Delivered(i, db, throttled) =>
      if i < |s.push.sending| {
        TransmittedMoves(s.push, i);
        MovedKeeps(s.push, s.push.Transmitted(i), true);
        SendAllGains(s.push.Transmitted(i), max, throttled, db, t);
      }
    case Replied(i, _, _, _) => if i < |s.push.awaiting| { ReplyGains(s, e, max, t); }
    case Idle => IdleGains(s.push, t);
    case RemoteChanged(d, how) => AncestorGains(s.push, d, how, t);
  }

  /** No event of the run queues a revision beside another one of its document. */
  ghost predicate Undisturbed(s: Session, events: seq<PushEvent>, max: nat)
    requires s.Settled(max)
  {
    forall i :: 0 <= i < |events| ==> !RunTo(s, events[..i], max, true).Repeats(events[i])
  }

  lemma UndisturbedFront(s: Session, events: seq<PushEvent>, max: nat, k: nat)
    requires s.Settled(max) && k <= |events| && Undisturbed(s, events, max)
    ensures Undisturbed(s, events[..k], max)
  {
    hide Session.Repeats, RunTo;
    forall i | 0 <= i < k ensures !RunTo(s, events[..k][..i], max, true).Repeats(events[..k][i]) {
      assert events[..k][..i] == events[..i];
    }
  }

  /** In every run, a sequence that is completed at the end and was not at the start goes back to an event that
      settled it. */
  lemma {:induction false} RunCompletes(s: Session, events: seq<PushEvent>, max: nat, t: int) returns (i: nat)
    requires s.Settled(max) && s.push.Valid(true) && Undisturbed(s, events, max)
    requires Gains(s.push.completed, RunTo(s, events, max, true).push.completed, t)
    ensures i < |events| && SettledAt(s, events, max, i, t)
  {
    hide PushState.Valid, Session.Next, Session.Repeats, Settles, Has;
    var k := |events| - 1;
    var before := RunTo(s, events[..k], max, true);
    UndisturbedFront(s, events, max, k);
    if Has(before.push.completed, t) {
      i := RunCompletes(s, events[..k], max, t);
      assert events[..k][..i] == events[..i];
    } else {
      RunKeeps(s, events[..k], max, true);
      NextCompletes(before, events[k], max, t);
      i := k;
    }
  }

  /** Event `j` of the run settles `t`. */
  ghost predicate SettledAt(s: Session, events: seq<PushEvent>, max: nat, j: nat, t: int)
    requires s.Settled(max) && j < |events|
  {
    Settles(RunTo(s, events[..j], max, true), events[j], t)
  }

  /** From event `i` on, nothing settles `t`. */
  ghost predicate LeftOpen(s: Session, events: seq<PushEvent>, max: nat, i: nat, t: int)
    requires s.Settled(max)
  {
    forall j :: i <= j < |events| ==> !SettledAt(s, events, max, j, t)
  }

  /** So what is pending stays pending. */
  lemma {:induction false} StaysPending(s: Session, events: seq<PushEvent>, max: nat, i: nat, t: int)
    requires s.Settled(max) && s.push.Valid(true) && Undisturbed(s, events, max) && i <= |events|
    requires !Has(RunTo(s, events[..i], max, true).push.completed, t) && LeftOpen(s, events, max, i, t)
    ensures !Has(RunTo(s, events, max, true).push.completed, t)
  {
    hide PushState.Valid, Session.Next, Session.Repeats, Settles, Has, LeftOpen, Undisturbed;
    if i == |events| {
      assert events[..i] == events;
    } else {
      var k := |events| - 1;
      UndisturbedFront(s, events, max, k);
      LeftOpenFront(s, events, max, i, t);
      assert events[..k][..i] == events[..i];
      StaysPending(s, events[..k], max, i, t);
      StillPending(s, events, max, t);
    }
  }

  lemma LeftOpenFront(s: Session, events: seq<PushEvent>, max: nat, i: nat, t: int)
    requires s.Settled(max) && i < |events| && LeftOpen(s, events, max, i, t)
    ensures LeftOpen(s, events[..|events| - 1], max, i, t)
    ensures !Settles(RunTo(s, events[..|events| - 1], max, true), events[|events| - 1], t)
  {
    hide SettledAt, RunTo, Settles, PushState.Valid;
    var k := |events| - 1;
    assert !SettledAt(s, events, max, k, t);
    SettledAtMeans(s, events, max, k, t);
    forall j | i <= j < |events[..k]| ensures !SettledAt(s, events[..k], max, j, t) { SettledAtSame(s, events, max, j, t); }
  }

  lemma SettledAtMeans(s: Session, events: seq<PushEvent>, max: nat, j: nat, t: int)
    requires s.Settled(max) && j < |events|
    ensures SettledAt(s, events, max, j, t) <==> Settles(RunTo(s, events[..j], max, true), events[j], t)
  {
    hide RunTo, Settles;
  }

  lemma SettledAtSame(s: Session, events: seq<PushEvent>, max: nat, j: nat, t: int)
    requires s.Settled(max) && j < |events| - 1
    ensures SettledAt(s, events[..|events| - 1], max, j, t) <==> SettledAt(s, events, max, j, t)
  {
    hide Settles, RunTo;
    assert events[..|events| - 1][..j] == events[..j];
  }

  lemma StillPending(s: Session, events: seq<PushEvent>, max: nat, t: int)
    requires s.Settled(max) && s.push.Valid(true) && Undisturbed(s, events, max) && events != []
    requires !Has(RunTo(s, events[..|events| - 1], max, true).push.completed, t)
    requires !Settles(RunTo(s, events[..|events| - 1], max, true), events[|events| - 1], t)
    ensures !Has(RunTo(s, events, max, true).push.completed, t)
  {
    hide PushState.Valid, Session.Next, Session.Repeats, Settles, Has;
    var k := |events| - 1;
    UndisturbedFront(s, events, max, k);
    RunKeeps(s, events[..k], max, true);
    var before := RunTo(s, events[..k], max, true);
    if Has(before.Next(events[k], max, true).push.completed, t) { NextCompletes(before, events[k], max, t); }
  }

  // ---- Ends that leave a revision to a later try

  /** The end of a revision that is not completed: its list was answered with an error, or the reply to it was a
      transient error, or that it is forbidden, for the first time. */
  predicate FailsOn(s: Session, e: PushEvent, r: Change)
  {
    match e
    case Answer(i, isError, _, _, _, _) => i < |s.push.announced| && isError && r in s.push.announced[i]
    case Replied(i, reply, _, _) =>
      && i < |s.push.awaiting| && r == s.push.awaiting[i]
      && (reply == Transient || (reply == Forbidden && r !in s.retried))
    case _ => false
  }

  /** It leaves the sequence pending. */
  lemma FailureLeavesPending(s: Session, e: PushEvent, r: Change, max: nat)
    requires s.Settled(max) && s.push.Valid(true) && FailsOn(s, e, r)
    ensures !Has(s.Next(e, max, true).push.completed, r.sequence) && 0 < r.sequence
  {
    FailedIsPushed(s, e, r);
    NotSettledByFailure(s, e, r);
    FailureIsNoRepeat(s, e, r);
    hide *;
    if Has(s.Next(e, max, true).push.completed, r.sequence) {
      GainsAt(s.push.completed, s.Next(e, max, true).push.completed, r.sequence);
      NextCompletes(s, e, max, r.sequence);
    }
  }

  lemma GainsAt(a: Ranges, b: Ranges, t: int)
    requires Has(b, t) && !Has(a, t)
    ensures Gains(a, b, t)
  {
  }

  lemma FailureIsNoRepeat(s: Session, e: PushEvent, r: Change)
    requires FailsOn(s, e, r)
    ensures !s.Repeats(e)
  {
  }

  lemma FailedIsPushed(s: Session, e: PushEvent, r: Change)
    requires s.push.Valid(true) && FailsOn(s, e, r)
    ensures Held(s.push.docs, r) && !Has(s.push.completed, r.sequence) && 0 < r.sequence
    ensures e.Replied? ==> r !in s.push.queue
  {
    if e.Answer? { InFlat(s.push.announced, e.i, r); }
    PipelineOf(s.push, r);
    hide Has, Canonical, PushState.Apart, PushState.Newer, PushState.Accounted, Within;
    assert s.push.Knows(r) && s.push.InWork(r);
  }

  lemma {:induction false} InFlat(lists: seq<seq<Change>>, i: nat, r: Change)
    requires i < |lists| && r in lists[i]
    ensures r in Flat(lists)
  {
    if i < |lists| - 1 { InFlat(lists[..|lists| - 1], i, r); }
  }

  /** What is in the pipeline is being pushed, and there once. */
  lemma PipelineOf(s: PushState, r: Change)
    requires s.Owned() && (r in Flat(s.announced) || r in s.awaiting)
    ensures Held(s.docs, r) && (r in s.awaiting ==> r !in s.queue)
  {
    assert multiset(Flat(s.announced))[r] + multiset(s.queue)[r] + multiset(s.awaiting)[r] <= s.Pipeline()[r];
  }

  lemma NotSettledByFailure(s: Session, e: PushEvent, r: Change)
    requires s.push.Valid(true) && FailsOn(s, e, r) && Held(s.push.docs, r) && (e.Replied? ==> r !in s.push.queue)
    ensures !Settles(s, e, r.sequence)
  {
    hide PushState.Valid;
    forall d | d in s.push.next ensures s.push.next[d].sequence != r.sequence { NextIsOther(s.push, r, d); }
    if e.Replied? {
      forall x | x in s.push.queue ensures !SentOff(s.push.next, e.db, x, r.sequence) { QueueIsOther(s.push, r, x); }
      NoneSentOff(s.push.queue, s.push.next, e.db, r.sequence);
      hide SentOff, AnySentOff;
    }
  }

  lemma NoneSentOff(queue: seq<Change>, next: Docs, db: Database, t: int)
    requires forall x :: x in queue ==> !SentOff(next, db, x, t)
    ensures !AnySentOff(queue, next, db, t)
  {
    hide SentOff;
  }

  lemma NextIsOther(s: PushState, r: Change, d: DocID)
    requires s.Valid(true) && Held(s.docs, r) && d in s.next
    ensures s.next[d].sequence != r.sequence
  {
    assert Held(s.next, s.next[d]) && s.Knows(s.next[d]) && s.Knows(r);
    hide Has, Canonical, PushState.Owned, PushState.Newer, PushState.Accounted, PushState.Open, Within;
  }

  lemma QueueIsOther(s: PushState, r: Change, x: Change)
    requires s.Valid(true) && Held(s.docs, r) && x in s.queue && r !in s.queue
    ensures x.sequence != r.sequence
  {
    assert x in s.Pipeline();
    assert Held(s.docs, x);
    assert s.Knows(x) && s.Knows(r);
    hide Has, Canonical, PushState.Owned, PushState.Newer, PushState.Accounted, PushState.Open, Within;
  }

  // ---- What becomes of a revision

  /** From `s` to `s'` nothing new is in work, what was announced still is, nothing is sent or taken back, no
      conflict is forgotten, and an active pusher takes nothing out of its checkpoint. */
  ghost predicate Onward(s: PushState, s': PushState, active: bool)
  {
    && (forall x :: s'.InWork(x) ==> s.InWork(x))
    && (forall list :: list in s.announced ==> list in s'.announced)
    && (forall d :: d in s.conflicts ==> d in s'.conflicts && s.conflicts[d].sequence <= s'.conflicts[d].sequence)
    && (active ==> forall t :: Has(s.completed, t) ==> Has(s'.completed, t))
    && s'.retry == s.retry && s'.awaiting == s.awaiting
  }

  lemma OnwardTwice(a: PushState, b: PushState, c: PushState, active: bool)
    requires Onward(a, b, active) && Onward(b, c, active)
    ensures Onward(a, c, active)
  {
    hide PushState.InWork, Has;
  }

  /** A revision is out of work, and completed in the checkpoint of an active pusher. */
  ghost predicate Off(s: PushState, r: Change, active: bool)
  {
    (forall x :: s.InWork(x) ==> x.sequence != r.sequence) && (active ==> Has(s.completed, r.sequence))
  }

  lemma OffStays(s: PushState, s': PushState, r: Change, active: bool)
    requires Off(s, r, active) && Onward(s, s', active)
    ensures Off(s', r, active)
  {
    hide PushState.InWork, Has;
  }

  /** So it is not in the pipeline. */
  lemma OffIsOut(s: PushState, r: Change, active: bool)
    requires s.Valid(active) && Off(s, r, active)
    ensures r !in s.Pipeline()
  {
    hide Has, Canonical, PushState.Apart, PushState.Newer, PushState.Accounted, PushState.Unique, PushState.Pipeline;
    assert !s.InWork(r);
    assert !Held(s.docs, r);
  }

  lemma FinishOnward(s: PushState, mark: bool, ends: bool, db: Database, active: bool)
    requires s.hand != [] && s.Valid(active)
    ensures var s' := s.Finish(mark, ends, Waiting(s, db), active);
            && Onward(s, s', active) && (forall x :: s'.InWork(x) ==> x.sequence != s.hand[0].sequence)
            && (mark && active ==> Has(s'.completed, s.hand[0].sequence))
            && s'.queue == s.queue && s'.sending == s.sending && s'.stalled == s.stalled
  {
    hide PushState.InWork, PushState.Finish, Has;
    var push := Waiting(s, db);
    FinishOwned(s, mark, ends, push, active);
    FinishWork(s, mark, ends, push, active);
    FinishRest(s, mark, ends, push, active);
    if active { FinishKeepsMarks(s, mark, ends, push); }
  }

  lemma FinishRest(s: PushState, mark: bool, ends: bool, push: bool, active: bool)
    requires s.hand != []
    ensures var s' := s.Finish(mark, ends, push, active);
            && s'.queue == s.queue && s'.sending == s.sending && s'.stalled == s.stalled && s'.awaiting == s.awaiting
            && s'.retry == s.retry && s'.conflicts == s.conflicts
            && (forall list :: list in s.announced ==> list in s'.announced)
  {
    hide Add, Remove;
  }

  lemma FinishWork(s: PushState, mark: bool, ends: bool, push: bool, active: bool)
    requires s.hand != [] && s.Valid(active) && Held(s.docs, s.hand[0])
    ensures forall x :: s.Finish(mark, ends, push, active).InWork(x) ==> s.InWork(x) && x.sequence != s.hand[0].sequence
  {
    FinishApart(s, mark, ends, push, active);
    var r, s' := s.hand[0], s.Finish(mark, ends, push, active);
    forall x | s'.InWork(x) ensures s.InWork(x) && x.sequence != r.sequence {
      assert s'.Knows(x) && s.Knows(r);
      if Held(s'.docs, x) && !Held(s.docs, x) { assert Held(s.next, x); }
    }
  }

  lemma FinishKeepsMarks(s: PushState, mark: bool, ends: bool, push: bool)
    requires s.hand != [] && s.Valid(true) && Held(s.docs, s.hand[0])
    ensures var s' := s.Finish(mark, ends, push, true);
            && (forall t :: Has(s.completed, t) ==> Has(s'.completed, t))
            && (mark ==> Has(s'.completed, s.hand[0].sequence))
  {
    var r := s.hand[0];
    assert s.Knows(r);
    if r.docID in s.next {
      assert s.Knows(s.next[r.docID]) && Held(s.next, s.next[r.docID]) && s.InWork(s.next[r.docID]);
      NextIsAnother(s, r);
    }
    FinishMarks(s, mark, ends, push);
    hide Has, Canonical, Add, Remove, PushState.Owned, PushState.Newer, PushState.Accounted, PushState.Finish, Within;
  }

  lemma NextIsAnother(s: PushState, r: Change)
    requires s.Valid(true) && Held(s.docs, r) && r.docID in s.next
    ensures s.next[r.docID].sequence != r.sequence
  {
    NextIsOther(s, r, r.docID);
  }

  // ---- Answers

  /** What an answer does with its change: it is queued if the peer wants it; it is announced again by itself if it is
      to be proposed once more; otherwise it is done, and a conflict that may be retried is remembered, or a newer
      one of its document. */
  ghost predicate Disposed(s: PushState, r: Change, response: Response, active: bool)
  {
    if Wanted(response, active) then r in s.queue
    else if AskedAgain(response, active) then [r] in s.announced
    else
      && Off(s, r, active)
      && (response == Conflict(Later) && active ==> Remembered(s, r))
  }

  predicate Remembered(s: PushState, r: Change)
  {
    r.docID in s.conflicts && r.sequence <= s.conflicts[r.docID].sequence
  }

  lemma DisposedStays(s: PushState, s': PushState, r: Change, response: Response, active: bool)
    requires Disposed(s, r, response, active) && Onward(s, s', active) && (r in s.queue ==> r in s'.queue)
    ensures Disposed(s', r, response, active)
  {
    if !Wanted(response, active) && !AskedAgain(response, active) { OffStays(s, s', r, active); }
    hide Off, Has, PushState.InWork;
  }

  /** The four things that can happen. */
  lemma RespondIs(s: PushState, response: Response, db: Database, active: bool)
    requires s.hand != []
    ensures Respond(s, response, db, active)
         == if Wanted(response, active) then s.Enqueue()
            else if AskedAgain(response, active) then s.Reannounce()
            else if response == Conflict(Later) && active then Finished(s, true, db, active).Note(s.hand[0], active)
            else Finished(s, true, db, active)
  {
    hide Finished, PushState.Note, PushState.Enqueue, PushState.Reannounce;
  }

  lemma RespondDisposes(s: PushState, response: Response, db: Database, active: bool)
    requires s.hand != [] && s.Valid(active)
    ensures var s' := Respond(s, response, db, active);
            && Onward(s, s', active) && Disposed(s', s.hand[0], response, active)
            && (forall x :: x in s.queue ==> x in s'.queue)
  {
    RespondIs(s, response, db, active);
    SameOnward(s, s.Enqueue(), active);
    SameOnward(s, s.Reannounce(), active);
    DoneDisposes(s, db, active);
    if active { NotedDisposes(s, db); }
    hide Finished, PushState.Valid, PushState.Note, Respond, Onward, Off, Remembered;
  }

  lemma DoneDisposes(s: PushState, db: Database, active: bool)
    requires s.hand != [] && s.Valid(active)
    ensures var s' := Finished(s, true, db, active);
            Onward(s, s', active) && Off(s', s.hand[0], active) && s'.queue == s.queue
  {
    FinishOnward(s, true, false, db, active);
    hide PushState.Finish, PushState.Valid, Has, PushState.InWork, Onward, Waiting;
  }

  lemma NotedDisposes(s: PushState, db: Database)
    requires s.hand != [] && s.Valid(true)
    ensures var s' := Finished(s, true, db, true).Note(s.hand[0], true);
            && Onward(s, s', true) && Off(s', s.hand[0], true) && Remembered(s', s.hand[0]) && s'.queue == s.queue
  {
    var t := Finished(s, true, db, true);
    FinishedKeeps(s, true, db, true);
    DoneDisposes(s, db, true);
    NoteOnward(t, s.hand[0]);
    NoteQueue(t, s.hand[0]);
    hide *;
    OffStays(t, t.Note(s.hand[0], true), s.hand[0], true);
    OnwardTwice(s, t, t.Note(s.hand[0], true), true);
  }

  lemma NoteQueue(s: PushState, r: Change)
    ensures s.Note(r, true).queue == s.queue
  {
    hide Add;
  }

  lemma SameOnward(s: PushState, s': PushState, active: bool)
    requires s'.docs == s.docs && s'.next == s.next && s'.retry == s.retry && s'.inbox == s.inbox
    requires s'.conflicts == s.conflicts && s'.completed == s.completed && s'.awaiting == s.awaiting
    requires forall list :: list in s.announced ==> list in s'.announced
    ensures Onward(s, s', active)
  {
    hide Has;
    assert forall x :: s'.InWork(x) <==> s.InWork(x);
  }

  lemma NoteOnward(s: PushState, r: Change)
    requires s.Valid(true)
    ensures Onward(s, s.Note(r, true), true) && Remembered(s.Note(r, true), r)
  {
    var s' := s.Note(r, true);
    forall t | Has(s.completed, t) ensures Has(s'.completed, t) { NoteGains(s, r, t); }
    NoteFields(s, r);
    hide PushState.InWork, Has, PushState.Note, PushState.Valid;
  }

  lemma NoteFields(s: PushState, r: Change)
    ensures var s' := s.Note(r, true);
            && (forall x :: s'.InWork(x) <==> s.InWork(x)) && Remembered(s', r)
            && s'.announced == s.announced && s'.retry == s.retry && s'.awaiting == s.awaiting
            && (forall d :: d in s.conflicts ==> d in s'.conflicts && s.conflicts[d].sequence <= s'.conflicts[d].sequence)
  {
    hide Add, Held;
  }

  lemma {:induction false} RespondAllDisposes(s: PushState, responses: seq<Response>, db: Database, active: bool)
    requires s.Valid(active)
    ensures var s' := RespondAll(s, responses, db, active);
            && Onward(s, s', active) && (forall x :: x in s.queue ==> x in s'.queue)
            && forall j :: 0 <= j < |s.hand| ==> Disposed(s', s.hand[j], AnswerTo(responses, j), active)
    decreases |s.hand|
  {
    hide PushState.Valid, Respond, Onward, Disposed;
    if s.hand == [] {
      SameOnward(s, s, active);
    } else {
      var response := AnswerTo(responses, 0);
      var rest := if responses == [] then [] else responses[1..];
      var u := Respond(s, response, db, active);
      var s' := RespondAll(u, rest, db, active);
      RespondKeeps(s, response, db, active);
      RespondDisposes(s, response, db, active);
      RespondAllDisposes(u, rest, db, active);
      OnwardTwice(s, u, s', active);
      DisposedStays(u, s', s.hand[0], response, active);
      forall j | 0 <= j < |s.hand| ensures Disposed(s', s.hand[j], AnswerTo(responses, j), active) {
        if j > 0 { assert s.hand[j] == u.hand[j - 1] && AnswerTo(rest, j - 1) == AnswerTo(responses, j); }
      }
    }
  }

  // ---- Sending

  ghost predicate OutOfWork(s: PushState, r: Change) { forall x :: s.InWork(x) ==> x.sequence != r.sequence }

  /** There is nothing to send of it. */
  predicate NoBody(db: Database, r: Change)
  {
    db.send(r) == Gone || db.send(r) == NoDocument || db.send(r) == NotEncrypted
  }

  /** What sending does with a revision: it is on its way if it has a body; it is left to a restart if the encryptor is
      busy; otherwise it is done, and completed unless its document was not found. */
  ghost predicate SentOut(s: PushState, r: Change, db: Database, active: bool)
  {
    match db.send(r)
    case Sent => r in s.sending
    case EncryptorBusy => r in s.stalled
    case Gone => Off(s, r, active)
    case NotEncrypted => Off(s, r, active)
    case NoDocument => OutOfWork(s, r)
  }

  /** All that was on its way or left to a restart still is. */
  ghost predicate Underway(s: PushState, s': PushState)
  {
    (forall x :: x in s.sending ==> x in s'.sending) && (forall x :: x in s.stalled ==> x in s'.stalled)
  }

  lemma SentOutStays(s: PushState, s': PushState, r: Change, db: Database, active: bool)
    requires SentOut(s, r, db, active) && Onward(s, s', active) && Underway(s, s')
    ensures SentOut(s', r, db, active)
  {
    hide Has, PushState.InWork;
  }

  lemma SendOneIs(s: PushState, db: Database, active: bool)
    requires s.hand != []
    ensures SendOne(s, db, active)
         == match db.send(s.hand[0])
            case Sent => s.Send()
            case EncryptorBusy => s.Stall()
            case Gone => s.Finish(true, true, Waiting(s, db), active)
            case NoDocument => s.Finish(false, true, Waiting(s, db), active)
            case NotEncrypted => s.Finish(true, false, Waiting(s, db), active)
  {
    hide PushState.Finish;
  }

  lemma SendOneSends(s: PushState, db: Database, active: bool)
    requires s.hand != [] && s.Valid(active)
    ensures var s' := SendOne(s, db, active);
            Onward(s, s', active) && Underway(s, s') && SentOut(s', s.hand[0], db, active)
  {
    hide PushState.Valid, PushState.Finish, SendOne, Onward, Off, OutOfWork, Waiting;
    SendOneIs(s, db, active);
    SameOnward(s, s.Send(), active);
    SameOnward(s, s.Stall(), active);
    FinishSends(s, true, true, db, active);
    FinishSends(s, false, true, db, active);
    FinishSends(s, true, false, db, active);
  }

  lemma FinishSends(s: PushState, mark: bool, ends: bool, db: Database, active: bool)
    requires s.hand != [] && s.Valid(active)
    ensures var s' := s.Finish(mark, ends, Waiting(s, db), active);
            Onward(s, s', active) && Underway(s, s') && OutOfWork(s', s.hand[0]) && (mark ==> Off(s', s.hand[0], active))
  {
    FinishOnward(s, mark, ends, db, active);
    hide PushState.Finish, PushState.Valid, Has, PushState.InWork, Onward, Waiting;
  }

  lemma {:induction false} SendAllSends(s: PushState, max: nat, throttled: bool, db: Database, active: bool)
    requires s.hand == [] && s.Valid(active)
    ensures var s' := SendAll(s, max, throttled, db, active);
            && Onward(s, s', active) && Underway(s, s')
            && (forall r :: r in s.queue ==> r in s'.queue || SentOut(s', r, db, active))
            && (throttled || s'.queue == [] || |s'.sending| >= max)
    decreases |s.queue|
  {
    hide PushState.Valid, SendOne, Onward, SentOut;
    if |s.sending| < max && !throttled && s.queue != [] {
      var u := s.Dequeue();
      var v := SendOne(u, db, active);
      var s' := SendAll(v, max, throttled, db, active);
      DequeueMoves(s);
      MovedKeeps(s, u, active);
      SameOnward(s, u, active);
      SendOneKeeps(u, db, active);
      SendOneSends(u, db, active);
      SendAllSends(v, max, throttled, db, active);
      OnwardTwice(s, u, v, active);
      OnwardTwice(s, v, s', active);
      SentOutStays(v, s', s.queue[0], db, active);
      forall r | r in s.queue ensures r in s'.queue || SentOut(s', r, db, active) {
        if r != s.queue[0] { assert r in v.queue; }
      }
    } else {
      SameOnward(s, s, active);
    }
  }

  // ---- What an answered list comes to

  /** What becomes of a change that was answered: it is in the pipeline, or had nothing to send, exactly if the peer
      wants it; it is in the pipeline if it is to be proposed again; otherwise it is out of it, its sequence
      completed, and a conflict that may be retried remembered. */
  ghost predicate Answered(t: PushState, r: Change, response: Response, db: Database, active: bool)
  {
    && (Wanted(response, active) ==> r in t.Pipeline() || NoBody(db, r))
    && (Wanted(response, active) ==> r in t.queue || SentOut(t, r, db, active))
    && (AskedAgain(response, active) ==> r in t.Pipeline())
    && (!Wanted(response, active) && !AskedAgain(response, active) ==>
          && r !in t.Pipeline() && (active ==> Has(t.completed, r.sequence))
          && (active && response == Conflict(Later) ==> Remembered(t, r)))
  }

  /** That is what happens to each change of a list when it is answered without error, and as much is sent as the limits
      allow. */
  lemma AnswerExactly(s: Session, e: PushEvent, j: nat, max: nat, active: bool)
    requires s.Settled(max) && s.push.Valid(active)
    requires e.Answer? && !e.isError && e.i < |s.push.announced| && j < |s.push.announced[e.i]|
    ensures Answered(s.Next(e, max, active).push, s.push.announced[e.i][j], AnswerTo(e.responses, j), e.db, active)
    ensures var t := s.Next(e, max, active).push; e.throttled || t.queue == [] || |t.sending| >= max
  {
    var u, list := s.push.Answered(e.i), s.push.announced[e.i];
    AnsweredMoves(s.push, e.i);
    MovedKeeps(s.push, u, active);
    AnswerIs(s, e, max, active);
    hide *;
    RespondAllKeeps(u, e.responses, e.db, active);
    RespondAllDisposes(u, e.responses, e.db, active);
    var v := RespondAll(u, e.responses, e.db, active);
    SendAllKeeps(v, max, e.throttled, e.db, active);
    SendAllSends(v, max, e.throttled, e.db, active);
    AnswerOutcome(v, SendAll(v, max, e.throttled, e.db, active), list[j], AnswerTo(e.responses, j), e.db, active);
  }

  lemma AnswerIs(s: Session, e: PushEvent, max: nat, active: bool)
    requires s.Settled(max) && e.Answer? && !e.isError && e.i < |s.push.announced|
    ensures s.push.Answered(e.i).hand == s.push.announced[e.i]
    ensures s.Next(e, max, active).push
         == SendAll(RespondAll(s.push.Answered(e.i), e.responses, e.db, active), max, e.throttled, e.db, active)
  {
    hide SendAll, RespondAll;
  }

  lemma AnswerOutcome(v: PushState, t: PushState, r: Change, response: Response, db: Database, active: bool)
    requires Disposed(v, r, response, active) && Onward(v, t, active) && t.Valid(active)
    requires r in v.queue ==> r in t.queue || SentOut(t, r, db, active)
    ensures Answered(t, r, response, db, active)
  {
    InPipeline(t, r);
    if !Wanted(response, active) && !AskedAgain(response, active) {
      OffStays(v, t, r, active);
      OffIsOut(t, r, active);
    } else if AskedAgain(response, active) {
      Announced(v, t, r, active);
    }
    if Remembered(v, r) { RememberedStays(v, t, r, active); }
    hide PushState.Valid, PushState.Pipeline, Has, PushState.InWork, Onward, Remembered;
  }

  lemma RememberedStays(v: PushState, t: PushState, r: Change, active: bool)
    requires Onward(v, t, active) && Remembered(v, r)
    ensures Remembered(t, r)
  {
  }

  lemma InPipeline(s: PushState, r: Change)
    ensures r in s.queue || r in s.sending || r in s.stalled || r in s.awaiting || r in Flat(s.announced) ==>
              r in s.Pipeline()
  {
  }

  lemma Announced(v: PushState, t: PushState, r: Change, active: bool)
    requires [r] in v.announced && Onward(v, t, active)
    ensures r in t.Pipeline()
  {
    var i :| 0 <= i < |t.announced| && t.announced[i] == [r];
    InFlat(t.announced, i, r);
    InPipeline(t, r);
  }

  // ---- What a reply comes to

  /** What becomes of a revision that was replied to. After a final reply it is out of the pipeline and completed. After a
      transient error it is out of work and pending. Forbidden for the first time, it is kept by an active pusher to be
      tried again when idle. A delta that failed is queued again, and sent if the limits allow. */
  ghost predicate RepliedTo(t: PushState, r: Change, reply: Reply, again: bool, delta: bool, db: Database, active: bool)
  {
    if Final(reply, again, delta) then r !in t.Pipeline() && Off(t, r, active)
    else if reply == DeltaFailed then r in t.queue || SentOut(t, r, db, active)
    else
      && r !in t.Pipeline() && (active ==> !Has(t.completed, r.sequence))
      && if reply == Forbidden && active then r in t.retry else OutOfWork(t, r)
  }

  lemma ReplyOutcome(s: Session, e: PushEvent, max: nat, active: bool)
    requires s.Settled(max) && s.push.Valid(active) && e.Replied? && e.i < |s.push.awaiting| && !s.Repeats(e)
    ensures var r, s' := s.push.awaiting[e.i], s.Next(e, max, active);
            && RepliedTo(s'.push, r, e.reply, r in s.retried, r in s.deltaOK, e.db, active)
            && s'.retried == s.retried + (if e.reply == Forbidden then {r} else {})
            && s'.deltaOK == s.deltaOK - (if e.reply == DeltaFailed then {r} else {})
            && (e.throttled || s'.push.queue == [] || |s'.push.sending| >= max)
  {
    var r, u := s.push.awaiting[e.i], s.push.Replied(e.i);
    hide *;
    RepliedValid(s, e, max, active);
    ReplyBecomes(s, e, max, active);
    FailsOrNot(s, e, r);
    if active && FailsOn(s, e, r) { FailureLeavesPending(s, e, r, max); }
    ReplySends(u, r, e.reply, r in s.retried, r in s.deltaOK, e.db, e.throttled, max, active);
  }

  lemma ReplySends(u: PushState, r: Change, reply: Reply, again: bool, delta: bool, db: Database, throttled: bool,
                   max: nat, active: bool)
    requires u.hand == [r] && u.Valid(active) && !(reply.DeltaFailed? && delta && Waiting(u, db))
    requires active && !Final(reply, again, delta) && reply != DeltaFailed ==>
               !Has(SendAll(AfterReply(u, reply, again, delta, db, active), max, throttled, db, active).completed, r.sequence)
    ensures var t := SendAll(AfterReply(u, reply, again, delta, db, active), max, throttled, db, active);
            RepliedTo(t, r, reply, again, delta, db, active) && (throttled || t.queue == [] || |t.sending| >= max)
  {
    hide *;
    ReplyExactly(u, reply, again, delta, db, active);
    AfterReplyPlaces(u, reply, again, delta, db, active);
    ThenSendsAll(AfterReply(u, reply, again, delta, db, active), r, reply, again, delta, db, throttled, max, active);
  }

  lemma ThenSendsAll(v: PushState, r: Change, reply: Reply, again: bool, delta: bool, db: Database, throttled: bool,
                     max: nat, active: bool)
    requires v.hand == [] && v.Valid(active) && Placed(v, r, reply, again, delta, active)
    requires active && !Final(reply, again, delta) && reply != DeltaFailed ==>
               !Has(SendAll(v, max, throttled, db, active).completed, r.sequence)
    ensures var t := SendAll(v, max, throttled, db, active);
            RepliedTo(t, r, reply, again, delta, db, active) && (throttled || t.queue == [] || |t.sending| >= max)
  {
    hide *;
    SendAllKeeps(v, max, throttled, db, active);
    SendAllSends(v, max, throttled, db, active);
    PlacedThen(v, SendAll(v, max, throttled, db, active), r, reply, again, delta, db, active);
  }

  lemma RepliedValid(s: Session, e: PushEvent, max: nat, active: bool)
    requires s.Settled(max) && s.push.Valid(active) && e.Replied? && e.i < |s.push.awaiting|
    ensures s.push.Replied(e.i).Valid(active)
  {
    RepliedKeeps(s.push, e.i, active);
  }

  lemma FailsOrNot(s: Session, e: PushEvent, r: Change)
    requires e.Replied? && e.i < |s.push.awaiting| && r == s.push.awaiting[e.i]
    ensures FailsOn(s, e, r) <==> !Final(e.reply, r in s.retried, r in s.deltaOK) && e.reply != DeltaFailed
  {
  }

  lemma ReplyBecomes(s: Session, e: PushEvent, max: nat, active: bool)
    requires s.Settled(max) && e.Replied? && e.i < |s.push.awaiting|
    ensures var r, u, s' := s.push.awaiting[e.i], s.push.Replied(e.i), s.Next(e, max, active);
            && u.hand == [r]
            && s'.push
               == SendAll(AfterReply(u, e.reply, r in s.retried, r in s.deltaOK, e.db, active), max, e.throttled, e.db, active)
            && (s.Repeats(e) <==> e.reply.DeltaFailed? && r in s.deltaOK && Waiting(u, e.db))
            && s'.retried == s.retried + (if e.reply == Forbidden then {r} else {})
            && s'.deltaOK == s.deltaOK - (if e.reply == DeltaFailed then {r} else {})
  {
    hide SendAll, AfterReply;
  }

  /** Where the revision is before anything more is sent. */
  ghost predicate Placed(v: PushState, r: Change, reply: Reply, again: bool, delta: bool, active: bool)
  {
    if Final(reply, again, delta) then Off(v, r, active)
    else if reply == DeltaFailed then r in v.queue
    else if reply == Forbidden && active then r in v.retry
    else OutOfWork(v, r)
  }

  lemma AfterReplyPlaces(u: PushState, reply: Reply, again: bool, delta: bool, db: Database, active: bool)
    requires u.hand != [] && u.Valid(active)
    ensures Placed(AfterReply(u, reply, again, delta, db, active), u.hand[0], reply, again, delta, active)
  {
    hide *;
    var r, done, left := u.hand[0], Finished(u, true, db, active), Finished(u, false, db, active);
    AfterReplyIs(u, reply, again, delta, db, active);
    DoneDisposes(u, db, active);
    GivenUpDisposes(u, db, active);
    PlacedAs(done, left, r, reply, again, delta, active);
  }

  lemma AfterReplyIs(u: PushState, reply: Reply, again: bool, delta: bool, db: Database, active: bool)
    requires u.hand != []
    ensures AfterReply(u, reply, again, delta, db, active)
         == LeftAs(Finished(u, true, db, active), Finished(u, false, db, active), u.hand[0], reply, again, delta, active)
  {
    hide Finished;
  }

  /** The state a revision is left in, `done` with it completed or `left` with it not. */
  function LeftAs(done: PushState, left: PushState, r: Change, reply: Reply, again: bool, delta: bool,
                  active: bool): PushState
  {
    if Final(reply, again, delta) then done
    else if reply == DeltaFailed then left.RetryNow(r)
    else if reply == Forbidden && active then left.RetryLater(r)
    else left
  }

  lemma PlacedAs(done: PushState, left: PushState, r: Change, reply: Reply, again: bool, delta: bool, active: bool)
    requires Off(done, r, active) && OutOfWork(left, r)
    ensures Placed(LeftAs(done, left, r, reply, again, delta, active), r, reply, again, delta, active)
  {
    hide Off, OutOfWork;
  }

  lemma GivenUpDisposes(u: PushState, db: Database, active: bool)
    requires u.hand != [] && u.Valid(active)
    ensures OutOfWork(Finished(u, false, db, active), u.hand[0])
  {
    FinishOnward(u, false, true, db, active);
    hide PushState.Finish, PushState.Valid, Has, PushState.InWork, Onward, Waiting;
  }

  lemma PlacedThen(v: PushState, t: PushState, r: Change, reply: Reply, again: bool, delta: bool, db: Database,
                   active: bool)
    requires Placed(v, r, reply, again, delta, active) && Onward(v, t, active) && t.Valid(active)
    requires r in v.queue ==> r in t.queue || SentOut(t, r, db, active)
    requires active && !Final(reply, again, delta) && reply != DeltaFailed ==> !Has(t.completed, r.sequence)
    ensures RepliedTo(t, r, reply, again, delta, db, active)
  {
    if Final(reply, again, delta) {
      OffStays(v, t, r, active);
      OffIsOut(t, r, active);
    } else if reply != DeltaFailed {
      if reply == Forbidden && active { RetriedIsOut(t, r); } else { OutStays(v, t, r, active); OutIsOut(t, r, active); }
    }
    hide PushState.Valid, PushState.Pipeline, Has, PushState.InWork, Off, OutOfWork, SentOut;
  }

  lemma RetriedIsOut(t: PushState, r: Change)
    requires t.Valid(true) && r in t.retry
    ensures r !in t.Pipeline()
  {
    hide Has, Canonical, PushState.Newer, PushState.Accounted, PushState.Unique, PushState.Open, PushState.Pipeline;
    assert !Held(t.docs, r);
  }

  lemma OutStays(s: PushState, s': PushState, r: Change, active: bool)
    requires OutOfWork(s, r) && Onward(s, s', active)
    ensures OutOfWork(s', r)
  {
    hide PushState.InWork, Has;
  }

  lemma OutIsOut(s: PushState, r: Change, active: bool)
    requires s.Valid(active) && OutOfWork(s, r)
    ensures r !in s.Pipeline()
  {
    hide Has, Canonical, PushState.Apart, PushState.Newer, PushState.Accounted, PushState.Unique, PushState.Pipeline;
    assert !s.InWork(r);
    assert !Held(s.docs, r);
  }

  // ---- The other events

  /** A transmitted revision awaits its reply, and as much of the queue is sent as the limits allow. */
  lemma DeliveredOutcome(s: Session, e: PushEvent, max: nat, active: bool)
    requires s.Settled(max) && s.push.Valid(active) && e.Delivered? && e.i < |s.push.sending|
    ensures var t := s.Next(e, max, active).push;
            && s.push.sending[e.i] in t.awaiting
            && (forall r :: r in s.push.queue ==> r in t.queue || SentOut(t, r, e.db, active))
            && (e.throttled || t.queue == [] || |t.sending| >= max)
  {
    var u := s.push.Transmitted(e.i);
    TransmittedMoves(s.push, e.i);
    MovedKeeps(s.push, u, active);
    SendAllSends(u, max, e.throttled, e.db, active);
    hide PushState.Valid, SendAll, SentOut, PushState.InWork, Has;
  }

  /** A change is being pushed, waits for that, or was overtaken by another one of these changes. */
  ghost predicate TakenIn(t: PushState, x: Change, changes: seq<Change>)
  {
    Held(t.docs, x) || Held(t.next, x) || exists y :: y in changes && Overtakes(x, y)
  }

  lemma {:induction false} TakeAllTakes(s: PushState, active: bool)
    requires s.Valid(active)
    ensures var t := TakeAll(s, active);
            && (forall x :: x in s.inbox || Held(s.docs, x) || Held(s.next, x) ==> TakenIn(t, x, s.inbox))
            && (forall x :: Held(s.docs, x) ==> Held(t.docs, x))
    decreases |s.inbox|
  {
    hide PushState.Valid, PushState.TakeIn;
    if s.inbox != [] {
      var u, t := s.TakeIn(active), TakeAll(s, active);
      TakeInKeeps(s, active);
      TakeInPlaces(s, active);
      TakeAllTakes(u, active);
      forall x | x in s.inbox || Held(s.docs, x) || Held(s.next, x) ensures TakenIn(t, x, s.inbox) {
        if x in u.inbox || Held(u.docs, x) || Held(u.next, x) {
          assert TakenIn(t, x, u.inbox);
        } else {
          assert s.inbox[0] in s.inbox;
        }
      }
    }
  }

  lemma TakeInPlaces(s: PushState, active: bool)
    requires s.inbox != [] && s.Valid(active)
    ensures var u := s.TakeIn(active);
            && u.inbox == s.inbox[1..] && (forall x :: Held(s.docs, x) ==> Held(u.docs, x))
            && (Held(u.docs, s.inbox[0]) || Held(u.next, s.inbox[0]))
            && (forall x :: Held(s.next, x) ==> Held(u.next, x) || Overtakes(x, s.inbox[0]))
  {
    hide Add, Has, Canonical, PushState.Owned, PushState.Unique, PushState.Accounted, PushState.Open, Within, Rising;
    assert s.inbox[0] in s.inbox;
  }

  /** What the feed found without error is taken in; what it found with one is dropped, and stays pending. */
  lemma FoundOutcome(s: Session, e: PushEvent, max: nat, active: bool)
    requires s.Settled(max) && s.push.Valid(active) && e.Found?
    requires e.last >= s.push.lastRead && Fresh(e.revs, e.sequences, s.push.lastRead, e.last)
    ensures var t := s.Next(e, max, active).push;
            t.lastRead == e.last && if e.err then AllDropped(t, e.revs, active) else AllTakenIn(t, e.revs)
  {
    FoundIs(s, e, max, active);
    hide PushState.Valid, Received, Fresh, AllDropped, AllTakenIn, Session.Next;
    FoundTakes(s.push, e.revs, e.sequences, e.last, active);
    FoundDrops(s.push, e.revs, e.sequences, e.last, active);
    FoundFields(s.push, e.revs, e.sequences, e.last, e.err, active);
  }

  lemma FoundIs(s: Session, e: PushEvent, max: nat, active: bool)
    requires s.Settled(max) && e.Found?
    requires e.last >= s.push.lastRead && Fresh(e.revs, e.sequences, s.push.lastRead, e.last)
    ensures s.Next(e, max, active).push == Received(s.push, e.revs, e.sequences, e.last, e.err, active)
  {
    hide Received, Fresh;
  }

  ghost predicate AllTakenIn(t: PushState, changes: seq<Change>) { forall x :: x in changes ==> TakenIn(t, x, changes) }

  ghost predicate AllDropped(t: PushState, changes: seq<Change>, active: bool)
  {
    forall x :: x in changes ==> x.sequence in t.ended && (active ==> !Has(t.completed, x.sequence))
  }

  lemma FoundFields(s: PushState, revs: seq<Change>, sequences: seq<int>, last: int, err: bool, active: bool)
    requires last >= s.lastRead
    ensures Received(s, revs, sequences, last, err, active).lastRead == last
  {
    hide TakeAll, Apply;
  }

  lemma FoundTakes(s: PushState, revs: seq<Change>, sequences: seq<int>, last: int, active: bool)
    requires s.Valid(active) && s.inbox == [] && 0 <= s.lastRead <= last && Fresh(revs, sequences, s.lastRead, last)
    ensures AllTakenIn(Received(s, revs, sequences, last, false, active), revs)
  {
    var u := s.Receive(revs, sequences, last, active);
    assert u.inbox == revs by { hide Apply; }
    ReceiveKeeps(s, revs, sequences, last, active);
    hide PushState.Valid, PushState.Receive, TakeAll, Fresh, AllTakenIn;
    TakeAllTakesAll(u, active);
    AnnouncedSame(TakeAll(u, active), revs);
  }

  lemma AnnouncedSame(t: PushState, changes: seq<Change>)
    requires AllTakenIn(t, changes)
    ensures AllTakenIn(t.Announce(), changes)
  {
  }

  lemma FoundDrops(s: PushState, revs: seq<Change>, sequences: seq<int>, last: int, active: bool)
    requires s.Valid(active) && s.inbox == [] && 0 <= s.lastRead <= last && Fresh(revs, sequences, s.lastRead, last)
    ensures AllDropped(Received(s, revs, sequences, last, true, active), revs, active)
  {
    if active { FoundArePending(s, revs, sequences, last); }
    hide PushState.Valid, Fresh, Apply, Has;
  }

  lemma FoundArePending(s: PushState, revs: seq<Change>, sequences: seq<int>, last: int)
    requires s.Valid(true) && 0 <= s.lastRead <= last && Fresh(revs, sequences, s.lastRead, last)
    ensures forall x :: x in revs ==> !Has(s.Receive(revs, sequences, last, true).completed, x.sequence)
  {
    ReceiveMarksOf(s, revs, sequences, last);
    assert forall x :: x in revs ==> x.sequence in sequences;
    hide Has, PushState.Valid, PushState.Receive;
  }

  /** An idle pusher takes in all that is to be tried again; a busy one nothing. */
  lemma IdleOutcome(s: Session, max: nat, active: bool)
    requires s.Settled(max) && s.push.Valid(active)
    ensures var t := s.Next(Idle, max, active).push;
            if Busy(s.push) then t == s.push else t.retry == [] && AllTakenIn(t, s.push.retry)
  {
    IdleIs(s, max, active);
    hide PushState.Valid, AllTakenIn, Session.Next, Retried;
    RetriedIs(s.push, active);
    if s.push.retry != [] && !Busy(s.push) { RetriedTakes(s.push, active); } else { NothingToTake(s.push); }
  }

  lemma IdleIs(s: Session, max: nat, active: bool)
    requires s.Settled(max)
    ensures s.Next(Idle, max, active).push == Retried(s.push, active)
  {
    hide Retried;
  }

  lemma RetriedIs(s: PushState, active: bool)
    ensures Retried(s, active) == if s.retry != [] && !Busy(s) then TakeAll(s.RetryAll(), active).Announce() else s
  {
    hide TakeAll;
  }

  lemma NothingToTake(t: PushState)
    ensures AllTakenIn(t, [])
  {
  }

  lemma RetriedTakes(s: PushState, active: bool)
    requires s.Valid(active) && s.inbox == [] && s.retry != [] && !Busy(s)
    ensures Retried(s, active).retry == [] && AllTakenIn(Retried(s, active), s.retry)
  {
    var u := s.RetryAll();
    RetryAllKeeps(s, active);
    RetriedIs(s, active);
    hide PushState.Valid, TakeAll, AllTakenIn, Retried;
    TakeAllTakesAll(u, active);
    AnnouncedSame(TakeAll(u, active), s.retry);
  }

  lemma TakeAllTakesAll(u: PushState, active: bool)
    requires u.Valid(active)
    ensures AllTakenIn(TakeAll(u, active), u.inbox)
  {
    hide PushState.Valid, TakeAll, TakenIn, Held;
    TakeAllTakes(u, active);
  }

  /** When the remote revision of a document in conflict changes, the conflict is forgotten: completed if the document
      has changed, pushed again if the remote revision is an ancestor, and given up otherwise. */
  lemma AncestorOutcome(s: Session, d: DocID, how: AncestorCase, max: nat, active: bool)
    requires s.Settled(max) && s.push.Valid(active) && d in s.push.conflicts && !s.Repeats(RemoteChanged(d, how))
    ensures var r, t := s.push.conflicts[d], s.Next(RemoteChanged(d, how), max, active).push;
            && d !in t.conflicts
            && if how == LocalChanged || s.push.Superseded(d) then active ==> Has(t.completed, r.sequence)
               else if how == IsAncestor then PushedAgain(t, r, active)
               else t.completed == s.push.completed && t.docs == s.push.docs
  {
    hide PushState.Valid, PushState.Superseded, PushState.Forget, PushState.Propose, PushedAgain, Has;
    ForgetOutcome(s.push, d, active);
    if how == IsAncestor && !s.push.Superseded(d) { ProposeOutcome(s.push, d, active); }
  }

  ghost predicate PushedAgain(t: PushState, r: Change, active: bool)
  {
    r in t.Pipeline() && Held(t.docs, r) && (active ==> !Has(t.completed, r.sequence))
  }

  lemma ForgetOutcome(s: PushState, d: DocID, active: bool)
    requires s.Valid(active) && d in s.conflicts
    ensures var r, t, u := s.conflicts[d], s.Forget(d, true, active), s.Forget(d, false, active);
            && d !in t.conflicts && d !in u.conflicts && (active ==> Has(t.completed, r.sequence))
            && u.completed == s.completed && u.docs == s.docs
  {
    var r := s.conflicts[d];
    assert s.Knows(r);
    AddAtCorrect(s.completed, r.sequence);
    hide Has, Canonical, AddAt, PushState.Owned, PushState.Accounted, PushState.Open, PushState.Newer, Within;
  }

  lemma ProposeOutcome(s: PushState, d: DocID, active: bool)
    requires s.Valid(active) && d in s.conflicts && d !in s.docs
    ensures var r := s.conflicts[d];
            var t := s.Forget(d, false, active).Propose(r, active);
            d !in t.conflicts && PushedAgain(t, r, active)
  {
    var r := s.conflicts[d];
    var t := s.Forget(d, false, active).Propose(r, active);
    assert Held(s.conflicts, r) && r.docID == d;
    RemoveCorrect(s.completed, r.sequence);
    assert t.announced[|t.announced| - 1] == [r];
    InFlat(t.announced, |t.announced| - 1, r);
    InPipeline(t, r);
    hide Has, Canonical, Remove, PushState.Valid, PushState.Pipeline;
  }
}
