/** Replicator/Pusher.cc and Pusher+Revs.cc: announcing changes, sending the revisions the peer wants,
    and retrying. */
module Pushers {
  import opened Common
  import opened SequenceSets
  import opened PushLedger
  import opened Changes
  import opened PushStates
  import FeedLaws

  /** The peer's answer to one announced change. `Wants`: a list of known ancestors, or status 0 to a
      proposal. `Declines`: zero or null to a change. `Missing`: the list of answers ends before. */
  datatype Response = Wants | Declines | Missing | Exists | Conflict(how: ConflictCase) | Refuses

  /** What becomes of a proposal that conflicts: it is made again with a newer ancestor; it is remembered
      until the remote revision changes; the local revision is obsolete; or it is given up. */
  datatype ConflictCase = NewerAncestor | Later | Obsolete | GiveUp

  /** What `sendRevision` finds: a body to send; a revision that is gone; a document that is gone; a body
      that cannot be encrypted, for good or for now. */
  datatype SendOutcome = Sent | Gone | NoDocument | NotEncrypted | EncryptorBusy

  /** The reply to a revision that was sent. */
  datatype Reply = Synced | Transient | Forbidden | DeltaFailed | Rejected

  /** What is found when the remote revision of a document in conflict has changed: the local one has
      changed too; the remote one is an ancestor of it; or it is not. */
  datatype AncestorCase = LocalChanged | IsAncestor | StillConflict

  /** What the pusher asks of the database: what it finds to send, and whether a waiting revision is
      still to be pushed. */
  datatype Database = Database(send: Change -> SendOutcome, push: Change -> bool)

  datatype PushEvent =
    | Found(revs: seq<Change>, sequences: seq<int>, last: int, err: bool)
    | Answer(i: nat, isError: bool, responses: seq<Response>, deltas: bool, db: Database, throttled: bool)
    | Delivered(i: nat, db: Database, throttled: bool)
    | Replied(i: nat, reply: Reply, db: Database, throttled: bool)
    | Idle
    | RemoteChanged(d: DocID, how: AncestorCase)

  // ---- What the loops come to

  /** All of the inbox is taken in, in turn. */
  function TakeAll(s: PushState, active: bool): (s': PushState)
    ensures s'.inbox == [] && s'.announced == s.announced && s'.sending == s.sending && s'.retry == s.retry
    ensures s'.lastRead == s.lastRead && s'.resumed == s.resumed && s'.ended == s.ended
    decreases |s.inbox|
  {
    if s.inbox == [] then s else TakeAll(s.TakeIn(active), active)
  }

  lemma {:induction false} TakeAllKeeps(s: PushState, active: bool)
    requires s.Valid(active)
    ensures TakeAll(s, active).Valid(active)
    decreases |s.inbox|
  {
    hide PushState.Valid, Add;
    if s.inbox != [] {
      TakeInKeeps(s, active);
      TakeAllKeeps(s.TakeIn(active), active);
    }
  }

  /** What the feed found is taken in, or dropped with its error. */
  function Received(s: PushState, revs: seq<Change>, sequences: seq<int>, last: int, err: bool, active: bool): PushState
  {
    var t := s.Receive(revs, sequences, last, active);
    if err then t.Drop() else TakeAll(t, active).Announce()
  }

  lemma ReceivedKeeps(s: PushState, revs: seq<Change>, sequences: seq<int>, last: int, err: bool, active: bool)
    requires s.Valid(active) && s.inbox == [] && 0 <= s.lastRead <= last && Fresh(revs, sequences, s.lastRead, last)
    ensures Received(s, revs, sequences, last, err, active).Valid(active)
  {
    hide PushState.Valid, PushState.Receive, PushState.Drop, Fresh;
    ReceiveKeeps(s, revs, sequences, last, active);
    var t := s.Receive(revs, sequences, last, active);
    DropKeeps(t, active);
    TakeAllKeeps(t, active);
    AnnounceMoves(TakeAll(t, active));
    MovedKeeps(TakeAll(t, active), TakeAll(t, active).Announce(), active);
  }

  /** Whether a revision that waits for the first of the hand is to be proposed. */
  predicate Waiting(s: PushState, db: Database)
    requires s.hand != []
  {
    var d := s.hand[0].docID;
    d in s.next && db.push(s.next[d])
  }

  /** The first of the hand is done: its sequence completed, or not. */
  function Finished(s: PushState, completed: bool, db: Database, active: bool): (s': PushState)
    requires s.hand != []
    ensures s'.hand == s.hand[1..] && s'.queue == s.queue && s'.sending == s.sending && s'.inbox == s.inbox
    ensures s'.lastRead == s.lastRead && s'.resumed == s.resumed
    ensures s'.ended == s.ended + if completed then {} else {s.hand[0].sequence}
  {
    FinishFields(s, completed, !completed, Waiting(s, db), active);
    s.Finish(completed, !completed, Waiting(s, db), active)
  }

  lemma FinishedKeeps(s: PushState, completed: bool, db: Database, active: bool)
    requires s.hand != [] && s.Valid(active)
    ensures var r, s' := s.hand[0], Finished(s, completed, db, active);
            && s'.Valid(active) && s'.Free(r, active && !completed) && s'.Fits(r)
            && (r.docID in s'.docs <==> Waiting(s, db))
            && (r.docID in s'.docs ==> r.sequence < s'.docs[r.docID].sequence)
  {
    hide PushState.Valid, PushState.Free, PushState.Fits, PushState.Finish;
    FinishKeeps(s, completed, !completed, Waiting(s, db), active);
    FinishDocs(s, completed, !completed, Waiting(s, db), active);
  }

  /** An error reply: the whole list is done, uncompleted. */
  function AllGivenUp(s: PushState, db: Database, active: bool): (s': PushState)
    ensures s'.hand == [] && s'.sending == s.sending && s'.inbox == s.inbox
    ensures s'.lastRead == s.lastRead && s'.resumed == s.resumed
    ensures forall t :: t in s'.ended ==> t in s.ended || exists r :: r in s.hand && r.sequence == t
    decreases |s.hand|
  {
    if s.hand == [] then s else
      assert s.hand == [s.hand[0]] + s.hand[1..];
      AllGivenUp(Finished(s, false, db, active), db, active)
  }

  lemma {:induction false} AllGivenUpKeeps(s: PushState, db: Database, active: bool)
    requires s.Valid(active)
    ensures AllGivenUp(s, db, active).Valid(active)
    decreases |s.hand|
  {
    hide PushState.Valid, Finished;
    if s.hand != [] {
      FinishedKeeps(s, false, db, active);
      AllGivenUpKeeps(Finished(s, false, db, active), db, active);
    }
  }

  /** One answer. Only a conflict of a proposal, which is what an active pusher makes, is looked into. */
  function Respond(s: PushState, response: Response, db: Database, active: bool): (s': PushState)
    requires s.hand != []
    ensures s'.hand == s.hand[1..] && s'.sending == s.sending && s'.inbox == s.inbox
    ensures s'.lastRead == s.lastRead && s'.resumed == s.resumed && s'.ended == s.ended
  {
    match response
    case Wants => s.Enqueue()
    case Missing => if active then s.Enqueue() else Finished(s, true, db, active)
    case Conflict(how) =>
      if active && how.NewerAncestor? then s.Reannounce()
      else if active && how.Later? then Finished(s, true, db, active).Note(s.hand[0], active)
      else Finished(s, true, db, active)
    case _ => Finished(s, true, db, active)
  }

  lemma RespondKeeps(s: PushState, response: Response, db: Database, active: bool)
    requires s.hand != [] && s.Valid(active)
    ensures Respond(s, response, db, active).Valid(active)
  {
    hide PushState.Valid, PushState.Free, PushState.Fits, PushState.Note, Finished;
    EnqueueMoves(s);
    MovedKeeps(s, s.Enqueue(), active);
    ReannounceMoves(s);
    MovedKeeps(s, s.Reannounce(), active);
    FinishedKeeps(s, true, db, active);
    NoteKeeps(Finished(s, true, db, active), s.hand[0], active);
  }

  /** The answers, side by side with the list. */
  function RespondAll(s: PushState, responses: seq<Response>, db: Database, active: bool): (s': PushState)
    ensures s'.hand == [] && s'.sending == s.sending && s'.inbox == s.inbox
    ensures s'.lastRead == s.lastRead && s'.resumed == s.resumed && s'.ended == s.ended
    decreases |s.hand|
  {
    if s.hand == [] then s
    else if responses == [] then RespondAll(Respond(s, Missing, db, active), [], db, active)
    else RespondAll(Respond(s, responses[0], db, active), responses[1..], db, active)
  }

  /** What is queued then was queued before, or was in the list. */
  lemma {:induction false} RespondAllQueues(s: PushState, responses: seq<Response>, db: Database, active: bool)
    ensures forall r :: r in RespondAll(s, responses, db, active).queue ==> r in s.queue || r in s.hand
    decreases |s.hand|
  {
    if s.hand != [] {
      var response := if responses == [] then Missing else responses[0];
      var t := Respond(s, response, db, active);
      RespondAllQueues(t, if responses == [] then [] else responses[1..], db, active);
      RespondQueues(s, response, db, active);
      hide Respond;
    }
  }

  lemma RespondQueues(s: PushState, response: Response, db: Database, active: bool)
    requires s.hand != []
    ensures Respond(s, response, db, active).queue == s.queue
         || Respond(s, response, db, active).queue == s.queue + [s.hand[0]]
  {
    hide Finished;
  }

  lemma {:induction false} RespondAllKeeps(s: PushState, responses: seq<Response>, db: Database, active: bool)
    requires s.Valid(active)
    ensures RespondAll(s, responses, db, active).Valid(active)
    decreases |s.hand|
  {
    hide PushState.Valid, Respond;
    if s.hand != [] {
      var response := if responses == [] then Missing else responses[0];
      RespondKeeps(s, response, db, active);
      RespondAllKeeps(Respond(s, response, db, active), if responses == [] then [] else responses[1..], db, active);
    }
  }

  /** A revision whose body is not in the database any more. */
  predicate BodyLost(db: Database, r: Change) { db.send(r).Gone? || db.send(r).NoDocument? }

  /** What becomes of a revision that is to be sent. */
  function SendOne(s: PushState, db: Database, active: bool): (s': PushState)
    requires s.hand != []
    ensures s'.hand == s.hand[1..] && s'.queue == s.queue && s'.inbox == s.inbox
    ensures s'.lastRead == s.lastRead && s'.resumed == s.resumed
    ensures |s'.sending| <= |s.sending| + 1
    ensures s'.ended == s.ended + if BodyLost(db, s.hand[0]) then {s.hand[0].sequence} else {}
  {
    match db.send(s.hand[0])
    case Sent => s.Send()
    case EncryptorBusy => s.Stall()
    case Gone =>
      FinishFields(s, true, true, Waiting(s, db), active);
      s.Finish(true, true, Waiting(s, db), active)
    case NoDocument => Finished(s, false, db, active)
    case NotEncrypted => Finished(s, true, db, active)
  }

  lemma SendOneKeeps(s: PushState, db: Database, active: bool)
    requires s.hand != [] && s.Valid(active)
    ensures SendOne(s, db, active).Valid(active)
  {
    hide PushState.Valid, PushState.Free, PushState.Fits, PushState.Finish, Finished;
    SendMoves(s);
    MovedKeeps(s, s.Send(), active);
    StallMoves(s);
    MovedKeeps(s, s.Stall(), active);
    FinishKeeps(s, true, true, Waiting(s, db), active);
    FinishedKeeps(s, true, db, active);
    FinishedKeeps(s, false, db, active);
  }

  /** The queue is sent from, while the limits allow. */
  function SendAll(s: PushState, max: nat, throttled: bool, db: Database, active: bool): (s': PushState)
    requires s.hand == []
    ensures s'.hand == [] && s'.inbox == s.inbox && s'.lastRead == s.lastRead && s'.resumed == s.resumed
    ensures |s.sending| <= max ==> |s'.sending| <= max
    ensures forall t :: t in s'.ended ==> t in s.ended || exists r :: r in s.queue && BodyLost(db, r) && r.sequence == t
    decreases |s.queue|
  {
    if |s.sending| < max && !throttled && s.queue != []
    then SendAll(SendOne(s.Dequeue(), db, active), max, throttled, db, active) else s
  }

  lemma {:induction false} SendAllKeeps(s: PushState, max: nat, throttled: bool, db: Database, active: bool)
    requires s.hand == [] && s.Valid(active)
    ensures SendAll(s, max, throttled, db, active).Valid(active)
    decreases |s.queue|
  {
    hide PushState.Valid, SendOne;
    if |s.sending| < max && !throttled && s.queue != [] {
      DequeueMoves(s);
      MovedKeeps(s, s.Dequeue(), active);
      SendOneKeeps(s.Dequeue(), db, active);
      SendAllKeeps(SendOne(s.Dequeue(), db, active), max, throttled, db, active);
    }
  }

  /** The replies after which a revision is not completed. */
  predicate EndsUncompleted(reply: Reply, again: bool, delta: bool)
  {
    reply.Transient? || (reply.Forbidden? && !again) || (reply.DeltaFailed? && delta)
  }

  /** What becomes of a revision that was sent, on the reply; `again` says that it was forbidden before,
      `delta` that it may have been sent as a delta. */
  function AfterReply(s: PushState, reply: Reply, again: bool, delta: bool, db: Database, active: bool): (s': PushState)
    requires s.hand != []
    ensures s'.hand == s.hand[1..] && s'.sending == s.sending && s'.inbox == s.inbox
    ensures s'.lastRead == s.lastRead && s'.resumed == s.resumed
    ensures s'.ended == s.ended + if EndsUncompleted(reply, again, delta) then {s.hand[0].sequence} else {}
    ensures s'.queue == (if reply.DeltaFailed? && delta then [s.hand[0]] else []) + s.queue
  {
    match reply
    case Synced => Finished(s, true, db, active)
    case Rejected => Finished(s, true, db, active)
    case Transient => Finished(s, false, db, active)
    case Forbidden =>
      if again then Finished(s, true, db, active)
      else if active then Finished(s, false, db, active).RetryLater(s.hand[0])
      else Finished(s, false, db, active)
    case DeltaFailed =>
      if delta then Finished(s, false, db, active).RetryNow(s.hand[0]) else Finished(s, true, db, active)
  }

  /** A reply keeps what holds exactly unless a failed delta is put back beside a proposed successor. */
  lemma ReplyExactly(s: PushState, reply: Reply, again: bool, delta: bool, db: Database, active: bool)
    requires s.hand != [] && s.Valid(active)
    ensures AfterReply(s, reply, again, delta, db, active).Valid(active)
       <==> !(reply.DeltaFailed? && delta && Waiting(s, db))
  {
    hide PushState.Valid, PushState.Free, PushState.Fits, Finished;
    FinishedKeeps(s, true, db, active);
    FinishedKeeps(s, false, db, active);
    var t := Finished(s, false, db, active);
    if reply.Forbidden? && active { RetryLaterKeeps(t, s.hand[0], true); }
    RetryNowExactly(t, s.hand[0], active);
  }

  predicate Busy(s: PushState)
  {
    s.announced != [] || s.sending != [] || s.queue != [] || s.docs != map[] || s.awaiting != []
  }

  /** `afterEvent`: when idle, what is to be retried is taken in again. */
  function Retried(s: PushState, active: bool): PushState
  {
    if s.retry != [] && !Busy(s) then TakeAll(s.RetryAll(), active).Announce() else s
  }

  lemma RetriedKeeps(s: PushState, active: bool)
    requires s.Valid(active) && s.inbox == []
    ensures Retried(s, active).Valid(active)
  {
    hide PushState.Valid;
    if s.retry != [] && !Busy(s) {
      RetryAllKeeps(s, active);
      TakeAllKeeps(s.RetryAll(), active);
      var t := TakeAll(s.RetryAll(), active);
      AnnounceMoves(t);
      MovedKeeps(t, t.Announce(), active);
    }
  }

  /** `_docRemoteAncestorChanged`: the document is looked up by the sequence of the conflict, so one that is
      superseded counts as changed. */
  function AfterAncestor(s: PushState, d: DocID, how: AncestorCase, active: bool): PushState
  {
    if d !in s.conflicts then s
    else if how.LocalChanged? || s.Superseded(d) then s.Forget(d, true, active)
    else if how.IsAncestor? then s.Forget(d, false, active).Propose(s.conflicts[d], active)
    else s.Forget(d, false, active)
  }

  /** A conflict is proposed while another revision of its document is pushed. */
  predicate ProposesBeside(s: PushState, d: DocID, how: AncestorCase)
  {
    how.IsAncestor? && d in s.conflicts && !s.Superseded(d) && d in s.docs
  }

  lemma AncestorExactly(s: PushState, d: DocID, how: AncestorCase, active: bool)
    requires s.Valid(active) && s.inbox == []
    ensures AfterAncestor(s, d, how, active).Valid(active) <==> !ProposesBeside(s, d, how)
  {
    hide PushState.Valid, PushState.Propose, PushState.Superseded, PushState.Forget;
    if d in s.conflicts {
      ForgetKeeps(s, d, true, active);
      ForgetKeeps(s, d, false, active);
      if !s.Superseded(d) { ProposeConflictExactly(s, d, active); }
    }
  }

  // ---- Runs

  /** The revisions that may be sent as deltas, after a list of them was answered with or without that
      allowed. */
  function Allowed(deltaOK: set<Change>, list: seq<Change>, ok: bool): set<Change>
  {
    if list == [] then deltaOK
    else
      var before, r := Allowed(deltaOK, list[..|list| - 1], ok), list[|list| - 1];
      if ok then before + {r} else before - {r}
  }

  /** A pusher between two events: its revisions, whether deltas are wanted, which revisions may be sent as
      one, and which were refused as forbidden before. */
  datatype Session = Session(push: PushState, deltasOK: bool, deltaOK: set<Change>, retried: set<Change>) {
    predicate Settled(max: nat)
    {
      push.hand == [] && push.inbox == [] && 0 <= push.lastRead && |push.sending| <= max
    }

    /** One event, if it can happen now. */
    function Next(e: PushEvent, max: nat, active: bool): (s: Session)
      requires Settled(max)
      ensures s.Settled(max)
    {
      match e
      case Found(revs, sequences, last, err) =>
        if last >= push.lastRead && Fresh(revs, sequences, push.lastRead, last)
        then this.(push := Received(push, revs, sequences, last, err, active)) else this
      case Answer(i, isError, responses, deltas, db, throttled) =>
        if i < |push.announced| then Answer(i, isError, responses, deltas, db, throttled, max, active) else this
      case Delivered(i, db, throttled) =>
        if i < |push.sending| then this.(push := SendAll(push.Transmitted(i), max, throttled, db, active)) else this
      case Replied(i, reply, db, throttled) =>
        if i < |push.awaiting| then Reply(i, reply, db, throttled, max, active) else this
      case Idle => this.(push := Retried(push, active))
      case RemoteChanged(d, how) => this.(push := AfterAncestor(push, d, how, active))
    }

    /** The answer to the list of changes at index `i`. */
    function Answer(i: nat, isError: bool, responses: seq<Response>, deltas: bool, db: Database, throttled: bool,
                    max: nat, active: bool): (s: Session)
      requires Settled(max) && i < |push.announced|
      ensures s.Settled(max) && s.push.lastRead == push.lastRead && s.push.resumed == push.resumed
    {
      var t := push.Answered(i);
      if isError then this.(push := AllGivenUp(t, db, active))
      else
        Session(SendAll(RespondAll(t, responses, db, active), max, throttled, db, active), deltasOK || deltas,
                Allowed(deltaOK, t.hand, deltasOK || deltas), retried)
    }

    /** The reply to the revision at index `i` of those that await one. */
    function Reply(i: nat, reply: Reply, db: Database, throttled: bool, max: nat, active: bool): (s: Session)
      requires Settled(max) && i < |push.awaiting|
      ensures s.Settled(max) && s.push.lastRead == push.lastRead && s.push.resumed == push.resumed
    {
      var r := push.awaiting[i];
      var t := AfterReply(push.Replied(i), reply, r in retried, r in deltaOK, db, active);
      Session(SendAll(t, max, throttled, db, active), deltasOK,
              deltaOK - (if reply.DeltaFailed? then {r} else {}), retried + (if reply.Forbidden? then {r} else {}))
    }

    /** The two events that put a revision into the pipeline without a look at what is there already. */
    predicate Repeats(e: PushEvent)
    {
      match e
      case Replied(i, reply, db, _) =>
        && i < |push.awaiting| && reply.DeltaFailed? && push.awaiting[i] in deltaOK
        && push.awaiting[i].docID in push.next && db.push(push.next[push.awaiting[i].docID])
      case RemoteChanged(d, how) => ProposesBeside(push, d, how)
      case _ => false
    }

    /** The revisions an event may end without completing them: an error to a list of changes or to the
        feed, a reply that leaves them to a later try, the body of a queued one that is gone. */
    predicate Ends(e: PushEvent, r: Change)
    {
      match e
      case Found(revs, _, _, err) => err && r in revs
      case Answer(i, isError, _, _, db, _) =>
        && i < |push.announced|
        && if isError then r in push.announced[i] else (r in push.queue || r in push.announced[i]) && BodyLost(db, r)
      case Delivered(i, db, _) => i < |push.sending| && r in push.queue && BodyLost(db, r)
      case Replied(i, reply, db, _) =>
        && i < |push.awaiting|
        && var retry := EndsUncompleted(reply, push.awaiting[i] in retried, push.awaiting[i] in deltaOK);
           if r == push.awaiting[i] && retry then true else r in push.queue && BodyLost(db, r)
      case _ => false
    }
  }

  /** After any run of events. */
  function RunTo(s: Session, events: seq<PushEvent>, max: nat, active: bool): (s': Session)
    requires s.Settled(max)
    ensures s'.Settled(max)
  {
    if events == [] then s
    else RunTo(s, events[..|events| - 1], max, active).Next(events[|events| - 1], max, active)
  }

  lemma AnswerKeeps(s: Session, i: nat, isError: bool, responses: seq<Response>, deltas: bool, db: Database,
                    throttled: bool, max: nat, active: bool)
    requires s.Settled(max) && i < |s.push.announced| && s.push.Valid(active)
    ensures s.Answer(i, isError, responses, deltas, db, throttled, max, active).push.Valid(active)
  {
    var t := s.push.Answered(i);
    AnsweredMoves(s.push, i);
    MovedKeeps(s.push, t, active);
    hide PushState.Valid, RespondAll, SendAll, AllGivenUp;
    AllGivenUpKeeps(t, db, active);
    RespondAllKeeps(t, responses, db, active);
    SendAllKeeps(RespondAll(t, responses, db, active), max, throttled, db, active);
  }

  lemma ReplyKeeps(s: Session, i: nat, reply: Reply, db: Database, throttled: bool, max: nat, active: bool)
    requires s.Settled(max) && i < |s.push.awaiting| && s.push.Valid(active)
    requires !s.Repeats(Replied(i, reply, db, throttled))
    ensures s.Reply(i, reply, db, throttled, max, active).push.Valid(active)
  {
    var r, t := s.push.awaiting[i], s.push.Replied(i);
    RepliedMoves(s.push, i);
    MovedKeeps(s.push, t, active);
    hide PushState.Valid, AfterReply, SendAll;
    ReplyExactly(t, reply, r in s.retried, r in s.deltaOK, db, active);
    SendAllKeeps(AfterReply(t, reply, r in s.retried, r in s.deltaOK, db, active), max, throttled, db, active);
  }

  /** Every event but those two keeps what holds. */
  lemma NextKeeps(s: Session, e: PushEvent, max: nat, active: bool)
    requires s.Settled(max) && s.push.Valid(active) && !s.Repeats(e)
    ensures s.Next(e, max, active).push.Valid(active)
  {
    hide PushState.Valid, Session.Answer, Session.Reply, SendAll, Retried, AfterAncestor, Received;
    match e
    case Found(revs, sequences, last, err) =>
      if last >= s.push.lastRead && Fresh(revs, sequences, s.push.lastRead, last) {
        ReceivedKeeps(s.push, revs, sequences, last, err, active);
      }
    case Answer(i, isError, responses, deltas, db, throttled) =>
      if i < |s.push.announced| { AnswerKeeps(s, i, isError, responses, deltas, db, throttled, max, active); }
    case Delivered(i, db, throttled) =>
      if i < |s.push.sending| {
        TransmittedMoves(s.push, i);
        MovedKeeps(s.push, s.push.Transmitted(i), active);
        SendAllKeeps(s.push.Transmitted(i), max, throttled, db, active);
      }
    case Replied(i, reply, db, throttled) =>
      if i < |s.push.awaiting| { ReplyKeeps(s, i, reply, db, throttled, max, active); }
    case Idle => RetriedKeeps(s.push, active);
    case RemoteChanged(d, how) => AncestorExactly(s.push, d, how, active);
  }

  /** In every run in which neither of those two events happens, what holds at the start holds at the
      end. */
  lemma {:induction false} RunKeeps(s: Session, events: seq<PushEvent>, max: nat, active: bool)
    requires s.Settled(max) && s.push.Valid(active)
    requires forall i :: 0 <= i < |events| ==> !RunTo(s, events[..i], max, active).Repeats(events[i])
    ensures RunTo(s, events, max, active).push.Valid(active)
  {
    hide PushState.Valid, Session.Next, Session.Repeats;
    if events != [] {
      var k := |events| - 1;
      forall i | 0 <= i < k ensures !RunTo(s, events[..k][..i], max, active).Repeats(events[..k][i]) {
        assert events[..k][..i] == events[..i];
      }
      RunKeeps(s, events[..k], max, active);
      NextKeeps(RunTo(s, events[..k], max, active), events[k], max, active);
    }
  }

  /** The checkpoint the push began with stays the same, and only the feed moves on. */
  lemma NextFields(s: Session, e: PushEvent, max: nat, active: bool)
    requires s.Settled(max)
    ensures var t := s.Next(e, max, active).push;
            && t.resumed == s.push.resumed
            && t.lastRead == if e.Found? && e.last >= s.push.lastRead
                                && Fresh(e.revs, e.sequences, s.push.lastRead, e.last)
                             then e.last else s.push.lastRead
  {
    hide Session.Answer, Session.Reply, SendAll, TakeAll, Apply, Add, Remove, Fresh;
  }

  /** And those two do break it, at least while nothing more is sent. */
  lemma RepeatsBreaks(s: Session, e: PushEvent, max: nat, active: bool)
    requires s.Settled(max) && s.push.Valid(active) && s.Repeats(e) && (e.Replied? ==> e.throttled)
    ensures !s.Next(e, max, active).push.Valid(active)
  {
    hide PushState.Valid, AfterAncestor, ProposesBeside, Session.Reply;
    if e.Replied? { ReplyBreaks(s, e.i, e.reply, e.db, max, active); } else { AncestorExactly(s.push, e.d, e.how, active); }
  }

  lemma ReplyBreaks(s: Session, i: nat, reply: Reply, db: Database, max: nat, active: bool)
    requires s.Settled(max) && s.push.Valid(active) && s.Repeats(Replied(i, reply, db, true))
    ensures !s.Reply(i, reply, db, true, max, active).push.Valid(active)
  {
    hide PushState.Valid, AfterReply, SendAll, Session.Reply;
    var r, t := s.push.awaiting[i], s.push.Replied(i);
    RepliedKeeps(s.push, i, active);
    ThrottledReply(s, i, reply, db, max, active);
    ReplyExactly(t, reply, r in s.retried, r in s.deltaOK, db, active);
  }

  lemma RepliedKeeps(s: PushState, i: nat, active: bool)
    requires s.hand == [] && i < |s.awaiting| && s.Valid(active)
    ensures s.Replied(i).Valid(active)
  {
    RepliedMoves(s, i);
    MovedKeeps(s, s.Replied(i), active);
  }

  lemma ThrottledReply(s: Session, i: nat, reply: Reply, db: Database, max: nat, active: bool)
    requires s.Settled(max) && i < |s.push.awaiting|
    ensures s.Reply(i, reply, db, true, max, active).push
         == AfterReply(s.push.Replied(i), reply, s.push.awaiting[i] in s.retried, s.push.awaiting[i] in s.deltaOK,
                       db, active)
  {
    hide PushState.Valid, AfterReply;
  }

  lemma RunBreaks(s: Session, events: seq<PushEvent>, e: PushEvent, max: nat, active: bool)
    requires s.Settled(max) && (e.Replied? ==> e.throttled)
    requires RunTo(s, events, max, active).push.Valid(active) && RunTo(s, events, max, active).Repeats(e)
    ensures !RunTo(s, events + [e], max, active).push.Valid(active)
  {
    RunMore(s, events, e, max, active);
    hide PushState.Valid, RunTo, Session.Next, Session.Repeats;
    RepeatsBreaks(RunTo(s, events, max, active), e, max, active);
  }

  /** What an event adds to the sequences that ended uncompleted. */
  lemma NextEnds(s: Session, e: PushEvent, max: nat, active: bool, t: int)
    requires s.Settled(max) && t in s.Next(e, max, active).push.ended
    ensures t in s.push.ended || exists r :: s.Ends(e, r) && r.sequence == t
  {
    hide Session.Answer, Session.Reply, SendAll, TakeAll, Apply, Add, Remove;
    if e.Answer? && e.i < |s.push.announced| { AnswerEnds(s, e, max, active, t); }
    if e.Replied? && e.i < |s.push.awaiting| { ReplyEnds(s, e, max, active, t); }
  }

  lemma AnswerEnds(s: Session, e: PushEvent, max: nat, active: bool, t: int)
    requires s.Settled(max) && e.Answer? && e.i < |s.push.announced| && t in s.Next(e, max, active).push.ended
    ensures t in s.push.ended || exists r :: s.Ends(e, r) && r.sequence == t
  {
    RespondAllQueues(s.push.Answered(e.i), e.responses, e.db, active);
    hide SendAll, RespondAll, AllGivenUp;
  }

  lemma ReplyEnds(s: Session, e: PushEvent, max: nat, active: bool, t: int)
    requires s.Settled(max) && e.Replied? && e.i < |s.push.awaiting| && t in s.Next(e, max, active).push.ended
    ensures t in s.push.ended || exists r :: s.Ends(e, r) && r.sequence == t
  {
    hide SendAll, AfterReply;
  }

  /** In every run, a sequence that ended uncompleted belongs to a revision that some event ended so. */
  lemma {:induction false} RunEnds(s: Session, events: seq<PushEvent>, max: nat, active: bool, t: int)
    returns (i: nat, r: Change)
    requires s.Settled(max) && t in RunTo(s, events, max, active).push.ended && t !in s.push.ended
    ensures i < |events| && RunTo(s, events[..i], max, active).Ends(events[i], r) && r.sequence == t
  {
    hide Session.Next, Session.Ends;
    var k := |events| - 1;
    var before := RunTo(s, events[..k], max, active);
    if t in before.push.ended {
      i, r := RunEnds(s, events[..k], max, active, t);
      assert events[..k][..i] == events[..i];
    } else {
      NextEnds(before, events[k], max, active, t);
      i := k;
      r :| before.Ends(events[k], r) && r.sequence == t;
    }
  }

  class Pusher {
    const active: bool
    const maxRevsInFlight: nat
    var state: PushState
    var changeListsInFlight: int
    var revisionsInFlight: int
    var deltasOK: bool
    var deltaOK: set<Change>     // revisions that may be sent as a delta
    var retried: set<Change>     // revisions that were refused as forbidden before

    ghost function Now(): Session
      reads this
    {
      Session(state, deltasOK, deltaOK, retried)
    }

    /** The counters count, and nothing is half done. */
    ghost predicate Shape()
      reads this
    {
      Now().Settled(maxRevsInFlight) && changeListsInFlight == |state.announced| && revisionsInFlight == |state.sending|
    }

    ghost predicate Valid()
      reads this
    {
      Shape() && state.Valid(active)
    }

    constructor (active: bool, maxRevsInFlight: nat, completed: Ranges, start: int)
      requires Canonical(completed) && 0 <= start && forall t :: 0 < t <= start ==> Has(completed, t)
      ensures Valid() && this.active == active && this.maxRevsInFlight == maxRevsInFlight
      ensures Now() == Started(completed, start)
    {
      this.active, this.maxRevsInFlight := active, maxRevsInFlight;
      changeListsInFlight, revisionsInFlight, deltasOK, deltaOK, retried := 0, 0, false, {}, {};
      state := PushState(map[], map[], [], [], [], [], [], map[], [], [], [], completed, start, {}, completed);
    }

    /** `gotChanges` with what the feed found up to `last`. */
    method GotChanges(revs: seq<Change>, sequences: seq<int>, last: int, err: bool)
      requires Shape() && state.lastRead <= last && Fresh(revs, sequences, state.lastRead, last)
      modifies this`state, this`changeListsInFlight
      ensures Shape() && (old(Valid()) ==> Valid())
      ensures state == Received(old(state), revs, sequences, last, err, active)
    {
      hide PushState.Valid;
      if state.Valid(active) { ReceivedKeeps(state, revs, sequences, last, err, active); }
      state := state.Receive(revs, sequences, last, active);
      if err {
        state := state.Drop();
      } else {
        TakeAllIn();
      }
    }

    /** The loop over the changes, and the announcement of those that can start. */
    method TakeAllIn()
      requires state.hand == [] && changeListsInFlight == |state.announced|
      modifies this`state, this`changeListsInFlight
      ensures state == TakeAll(old(state), active).Announce() && changeListsInFlight == |state.announced|
    {
      hide Add;
      while state.inbox != []
        invariant TakeAll(state, active) == TakeAll(old(state), active)
        invariant changeListsInFlight == |state.announced|
        decreases |state.inbox|
      {
        state := state.TakeIn(active);
      }
      SendChanges();
    }

    method SendChanges()
      requires changeListsInFlight == |state.announced|
      modifies this`state, this`changeListsInFlight
      ensures state == old(state).Announce() && changeListsInFlight == |state.announced|
    {
      if state.hand != [] { changeListsInFlight := changeListsInFlight + 1; }
      state := state.Announce();
    }

    /** `doneWithRev` for the first of the hand. `mark` says that its sequence is completed, now or just
        before; `ends` that it was called with `completed` false. */
    method DoneWithRev(mark: bool, ends: bool, db: Database)
      requires state.hand != [] && changeListsInFlight == |state.announced| && (mark || ends)
      modifies this`state, this`changeListsInFlight
      ensures state == old(state).Finish(mark, ends, Waiting(old(state), db), active)
      ensures changeListsInFlight == |state.announced|
      ensures old(state.Valid(active)) ==> state.Valid(active) && state.Free(old(state).hand[0], active && !mark)
    {
      hide PushState.Valid, PushState.Free, PushState.Finish;
      var push := Waiting(state, db);
      if state.Valid(active) { FinishKeeps(state, mark, ends, push, active); }
      FinishFields(state, mark, ends, push, active);
      if push { changeListsInFlight := changeListsInFlight + 1; }
      state := state.Finish(mark, ends, push, active);
    }

    /** `handleChangesResponse` for the list at index `i`. */
    method HandleChangesResponse(i: nat, isError: bool, responses: seq<Response>, deltas: bool, db: Database,
                                 throttled: bool)
      requires Shape() && i < |state.announced|
      modifies this
      ensures Shape() && (old(Valid()) ==> Valid())
      ensures Now() == old(Now()).Answer(i, isError, responses, deltas, db, throttled, maxRevsInFlight, active)
    {
      hide PushState.Valid, RespondAll, SendAll, AllGivenUp;
      if state.Valid(active) {
        AnswerKeeps(Now(), i, isError, responses, deltas, db, throttled, maxRevsInFlight, active);
      }
      changeListsInFlight := changeListsInFlight - 1;
      state := state.Answered(i);
      if isError {
        GiveUpAll(db);
      } else {
        if deltas { deltasOK := true; }
        HandleResponses(responses, db);
        MaybeSendMoreRevs(db, throttled);
      }
    }

    /** An error reply: the whole list is done, uncompleted. */
    method GiveUpAll(db: Database)
      requires changeListsInFlight == |state.announced|
      modifies this`state, this`changeListsInFlight
      ensures state == AllGivenUp(old(state), db, active) && changeListsInFlight == |state.announced|
    {
      hide PushState.Finish;
      while state.hand != []
        invariant AllGivenUp(state, db, active) == AllGivenUp(old(state), db, active)
        invariant changeListsInFlight == |state.announced|
        decreases |state.hand|
      {
        FinishFields(state, false, true, Waiting(state, db), active);
        DoneWithRev(false, true, db);
      }
    }

    /** The loop over the list and the answers beside it. */
    method HandleResponses(responses: seq<Response>, db: Database)
      requires changeListsInFlight == |state.announced|
      modifies this`state, this`changeListsInFlight, this`deltaOK
      ensures state == RespondAll(old(state), responses, db, active) && changeListsInFlight == |state.announced|
      ensures deltaOK == Allowed(old(deltaOK), old(state).hand, deltasOK)
    {
      var k := 0;
      ghost var list := state.hand;
      NoResponses(responses, list, deltaOK, deltasOK);
      hide Respond, RespondAll, Allowed, From;
      while state.hand != []
        invariant RespondAll(state, From(responses, k), db, active) == RespondAll(old(state), responses, db, active)
        invariant changeListsInFlight == |state.announced|
        invariant 0 <= k <= |list| && state.hand == list[k..]
        invariant deltaOK == Allowed(old(deltaOK), list[..k], deltasOK)
        decreases |state.hand|
      {
        AllowedMore(old(deltaOK), list, k, deltasOK);
        HandleNext(responses, k, db);
        k := k + 1;
      }
      AllResponded(state, From(responses, k), db, active);
      assert list[..k] == list;
    }

    /** One turn of the loop. */
    method HandleNext(responses: seq<Response>, k: nat, db: Database)
      requires changeListsInFlight == |state.announced| && state.hand != []
      modifies this`state, this`changeListsInFlight, this`deltaOK
      ensures RespondAll(state, From(responses, k + 1), db, active) == RespondAll(old(state), From(responses, k), db, active)
      ensures changeListsInFlight == |state.announced| && state.hand == old(state).hand[1..]
      ensures var r := old(state).hand[0]; deltaOK == if deltasOK then old(deltaOK) + {r} else old(deltaOK) - {r}
    {
      hide Respond, RespondAll, From;
      var r := state.hand[0];
      RespondMore(state, responses, k, db, active);
      deltaOK := if deltasOK then deltaOK + {r} else deltaOK - {r};
      HandleResponse(if k < |responses| then responses[k] else Missing, db);
    }

    /** `handleChangeResponse` and `handleProposedChangeResponse`: one answer. */
    method HandleResponse(response: Response, db: Database)
      requires changeListsInFlight == |state.announced| && state.hand != []
      modifies this`state, this`changeListsInFlight
      ensures state == Respond(old(state), response, db, active) && changeListsInFlight == |state.announced|
      ensures old(state.Valid(active)) ==> state.Valid(active)
    {
      hide PushState.Valid, PushState.Finish, PushState.Free;
      if state.Valid(active) { RespondKeeps(state, response, db, active); }
      match response {
        case Wants => state := state.Enqueue();
        case Missing => if !active { DoneWithRev(true, false, db); } else { state := state.Enqueue(); }
        case Declines => DoneWithRev(true, false, db);
        case Exists => DoneWithRev(true, false, db);
        case Refuses => DoneWithRev(true, false, db);
        case Conflict(how) => HandleConflict(if !active then GiveUp else how, db);
      }
    }

    /** The answer was a conflict. Only a proposal, from an active pusher, is looked into. */
    method HandleConflict(how: ConflictCase, db: Database)
      requires changeListsInFlight == |state.announced| && state.hand != []
      modifies this`state, this`changeListsInFlight
      ensures changeListsInFlight == |state.announced|
      ensures state == if how.NewerAncestor? then old(state).Reannounce()
                       else if how.Later? then Finished(old(state), true, db, active).Note(old(state).hand[0], active)
                       else Finished(old(state), true, db, active)
    {
      hide PushState.Valid, PushState.Finish, PushState.Free;
      match how {
        case NewerAncestor =>
          changeListsInFlight := changeListsInFlight + 1;
          state := state.Reannounce();
        case Obsolete => DoneWithRev(true, false, db);
        case GiveUp => DoneWithRev(true, false, db);
        case Later =>
          var r := state.hand[0];
          DoneWithRev(true, false, db);
          state := state.Note(r, active);
      }
    }

    /** Sends what is queued, as far as the limits allow. `throttled` says that too many bytes await a
        reply. */
    method MaybeSendMoreRevs(db: Database, throttled: bool)
      requires Shape()
      modifies this`state, this`changeListsInFlight, this`revisionsInFlight
      ensures Shape() && (old(Valid()) ==> Valid())
      ensures throttled || state.queue == [] || revisionsInFlight == maxRevsInFlight
      ensures state == SendAll(old(state), maxRevsInFlight, throttled, db, active)
    {
      hide PushState.Valid, SendOne;
      if state.Valid(active) { SendAllKeeps(state, maxRevsInFlight, throttled, db, active); }
      while revisionsInFlight < maxRevsInFlight && !throttled && state.queue != []
        invariant Shape()
        invariant SendAll(state, maxRevsInFlight, throttled, db, active)
               == SendAll(old(state), maxRevsInFlight, throttled, db, active)
        decreases |state.queue|
      {
        state := state.Dequeue();
        SendRevision(db);
      }
    }

    /** `sendRevision` for the one in hand. */
    method SendRevision(db: Database)
      requires |state.hand| == 1 && state.inbox == [] && changeListsInFlight == |state.announced| && 0 <= state.lastRead
      requires revisionsInFlight == |state.sending| < maxRevsInFlight
      modifies this`state, this`changeListsInFlight, this`revisionsInFlight
      ensures Shape() && state == SendOne(old(state), db, active)
      ensures old(state.Valid(active)) ==> state.Valid(active)
    {
      hide PushState.Valid, PushState.Finish, PushState.Free;
      if state.Valid(active) { SendOneKeeps(state, db, active); }
      FinishFields(state, true, true, Waiting(state, db), active);
      FinishFields(state, true, false, Waiting(state, db), active);
      FinishFields(state, false, true, Waiting(state, db), active);
      match db.send(state.hand[0]) {
        case Sent =>
          state := state.Send();
          revisionsInFlight := revisionsInFlight + 1;
        case Gone => DoneWithRev(true, true, db);
        case NoDocument => DoneWithRev(false, true, db);
        case NotEncrypted => DoneWithRev(true, false, db);
        case EncryptorBusy => state := state.Stall();
      }
    }

    /** A revision has been transmitted. */
    method OnAwaitingReply(i: nat, db: Database, throttled: bool)
      requires Shape() && i < |state.sending|
      modifies this`state, this`changeListsInFlight, this`revisionsInFlight
      ensures Shape() && (old(Valid()) ==> Valid())
      ensures state == SendAll(old(state).Transmitted(i), maxRevsInFlight, throttled, db, active)
    {
      TransmittedMoves(state, i);
      if state.Valid(active) { MovedKeeps(state, state.Transmitted(i), active); }
      hide PushState.Valid, SendAll;
      revisionsInFlight := revisionsInFlight - 1;
      state := state.Transmitted(i);
      MaybeSendMoreRevs(db, throttled);
    }

    /** The reply to a revision has come. */
    method OnComplete(i: nat, reply: Reply, db: Database, throttled: bool)
      requires Shape() && i < |state.awaiting|
      modifies this
      ensures Shape() && (old(Valid()) && !old(Now()).Repeats(Replied(i, reply, db, throttled)) ==> Valid())
      ensures Now() == old(Now()).Reply(i, reply, db, throttled, maxRevsInFlight, active)
    {
      hide PushState.Valid, SendAll, AfterReply;
      if state.Valid(active) && !Now().Repeats(Replied(i, reply, db, throttled)) {
        ReplyKeeps(Now(), i, reply, db, throttled, maxRevsInFlight, active);
      }
      state := state.Replied(i);
      HandleReply(reply, db);
      MaybeSendMoreRevs(db, throttled);
    }

    /** What a reply means for the revision in hand. */
    method HandleReply(reply: Reply, db: Database)
      requires |state.hand| == 1 && changeListsInFlight == |state.announced|
      modifies this`state, this`changeListsInFlight, this`deltaOK, this`retried
      ensures changeListsInFlight == |state.announced|
      ensures var r := old(state).hand[0];
              && state == AfterReply(old(state), reply, r in old(retried), r in old(deltaOK), db, active)
              && retried == old(retried) + (if reply.Forbidden? then {r} else {})
              && deltaOK == old(deltaOK) - (if reply.DeltaFailed? then {r} else {})
      ensures old(state.Valid(active)) ==>
                (state.Valid(active)
                 <==> !(reply.DeltaFailed? && old(state).hand[0] in old(deltaOK) && Waiting(old(state), db)))
    {
      hide PushState.Valid, PushState.Free, PushState.Finish;
      var r := state.hand[0];
      if state.Valid(active) { ReplyExactly(state, reply, r in retried, r in deltaOK, db, active); }
      match reply {
        case Synced => DoneWithRev(true, false, db);
        case Rejected => DoneWithRev(true, false, db);
        case Transient => DoneWithRev(false, true, db);
        case Forbidden =>
          if r in retried { DoneWithRev(true, false, db); } else {
            retried := retried + {r};
            DoneWithRev(false, true, db);
            if active { state := state.RetryLater(r); }
          }
        case DeltaFailed =>
          if r !in deltaOK { DoneWithRev(true, false, db); } else {
            deltaOK := deltaOK - {r};
            DoneWithRev(false, true, db);
            state := state.RetryNow(r);
          }
      }
    }

    /** `afterEvent`: when idle, what is to be retried is taken in again. */
    method AfterEvent()
      requires Shape()
      modifies this`state, this`changeListsInFlight
      ensures Shape() && (old(Valid()) ==> Valid())
      ensures !Busy(old(state)) ==> state.retry == []
      ensures state == Retried(old(state), active)
    {
      hide PushState.Valid;
      if state.Valid(active) { RetriedKeeps(state, active); }
      var busy := IsBusy();
      if state.retry != [] && !busy {
        state := state.RetryAll();
        TakeAllIn();
      }
    }

    method IsBusy() returns (b: bool)
      requires Shape()
      ensures b <==> Busy(state)
    {
      b := changeListsInFlight > 0 || revisionsInFlight > 0 || state.queue != [] || state.docs != map[]
        || state.awaiting != [];
    }

    /** `_docRemoteAncestorChanged`: the remote revision of a document in conflict has changed. */
    method DocRemoteAncestorChanged(d: DocID, how: AncestorCase)
      requires Shape()
      modifies this`state, this`changeListsInFlight
      ensures Shape() && state == AfterAncestor(old(state), d, how, active)
      ensures old(Valid()) ==> (Valid() <==> !ProposesBeside(old(state), d, how))
    {
      hide PushState.Valid, PushState.Propose, PushState.Superseded;
      if state.Valid(active) { AncestorExactly(state, d, how, active); }
      if d in state.conflicts {
        if how.LocalChanged? || state.Superseded(d) {
          state := state.Forget(d, true, active);
        } else if how.IsAncestor? {
          var r := state.conflicts[d];
          state := state.Forget(d, false, active);
          ProposeFields(state, r, active);
          state := state.Propose(r, active);
          changeListsInFlight := changeListsInFlight + 1;
        } else {
          state := state.Forget(d, false, active);
        }
      }
    }

    method Step(e: PushEvent)
      requires Shape()
      modifies this
      ensures Shape() && Now() == old(Now()).Next(e, maxRevsInFlight, active)
    {
      hide PushState.Valid, SendAll, Retried, AfterAncestor, Received, Session.Answer, Session.Reply;
      match e {
        case Found(revs, sequences, last, err) =>
          if last >= state.lastRead && Fresh(revs, sequences, state.lastRead, last) {
            GotChanges(revs, sequences, last, err);
          }
        case Answer(i, isError, responses, deltas, db, throttled) =>
          if i < |state.announced| { HandleChangesResponse(i, isError, responses, deltas, db, throttled); }
        case Delivered(i, db, throttled) => if i < |state.sending| { OnAwaitingReply(i, db, throttled); }
        case Replied(i, reply, db, throttled) => if i < |state.awaiting| { OnComplete(i, reply, db, throttled); }
        case Idle => AfterEvent();
        case RemoteChanged(d, how) => DocRemoteAncestorChanged(d, how);
      }
    }

    /** Any run of events. If in no state on the way the next event is one of those two, each document has
        one owner in the end and every pending sequence is accounted for. */
    method Run(events: seq<PushEvent>)
      requires Shape()
      modifies this
      ensures Shape() && Now() == RunTo(old(Now()), events, maxRevsInFlight, active)
      ensures old(Valid())
              && (forall i :: 0 <= i < |events| ==>
                                !RunTo(old(Now()), events[..i], maxRevsInFlight, active).Repeats(events[i]))
              ==> Valid()
    {
      hide PushState.Valid, Session.Next, Session.Repeats;
      ghost var start := Now();
      for k := 0 to |events|
        invariant Shape() && Now() == RunTo(start, events[..k], maxRevsInFlight, active)
      {
        assert events[..k + 1][..k] == events[..k];
        Step(events[k]);
      }
      assert events[..|events|] == events;
      if old(Valid()) && forall i :: 0 <= i < |events| ==>
           !RunTo(start, events[..i], maxRevsInFlight, active).Repeats(events[i])
      {
        RunKeeps(start, events, maxRevsInFlight, active);
      }
    }
  }

  /** A pusher that has nothing to push yet. */
  function Started(completed: Ranges, start: int): Session
  {
    Session(PushState(map[], map[], [], [], [], [], [], map[], [], [], [], completed, start, {}, completed), false, {}, {})
  }

  function From(responses: seq<Response>, k: nat): seq<Response> { responses[if k < |responses| then k else |responses|..] }

  lemma NoResponses(responses: seq<Response>, list: seq<Change>, deltaOK: set<Change>, ok: bool)
    ensures From(responses, 0) == responses && list[0..] == list && Allowed(deltaOK, list[..0], ok) == deltaOK
  {
  }

  lemma RespondMore(s: PushState, responses: seq<Response>, k: nat, db: Database, active: bool)
    requires s.hand != []
    ensures RespondAll(s, From(responses, k), db, active)
         == RespondAll(Respond(s, if k < |responses| then responses[k] else Missing, db, active),
                       From(responses, k + 1), db, active)
  {
    hide Respond;
    if k < |responses| { assert From(responses, k)[1..] == From(responses, k + 1); }
  }

  lemma AllResponded(s: PushState, responses: seq<Response>, db: Database, active: bool)
    requires s.hand == []
    ensures RespondAll(s, responses, db, active) == s
  {
  }

  lemma AllowedMore(deltaOK: set<Change>, list: seq<Change>, k: nat, ok: bool)
    requires k < |list|
    ensures var before := Allowed(deltaOK, list[..k], ok);
            Allowed(deltaOK, list[..k + 1], ok) == if ok then before + {list[k]} else before - {list[k]}
  {
    assert list[..k + 1][..k] == list[..k];
  }

  lemma ProposeFields(s: PushState, r: Change, active: bool)
    ensures var s' := s.Propose(r, active);
            && s'.hand == s.hand && s'.inbox == s.inbox && s'.sending == s.sending
            && s'.lastRead == s.lastRead && s'.resumed == s.resumed
            && |s'.announced| == |s.announced| + 1
  {
    hide Remove;
  }

  // ---- Two runs that end with two revisions of a document in the pipeline

  lemma RunMore(s: Session, events: seq<PushEvent>, e: PushEvent, max: nat, active: bool)
    requires s.Settled(max)
    ensures RunTo(s, events + [e], max, active) == RunTo(s, events, max, active).Next(e, max, active)
  {
    assert (events + [e])[..|events|] == events;
  }

  const FIRST := Change("d", 1)
  const SECOND := Change("d", 2)

  /** A database that has all bodies, and filters that let everything through. */
  function Willing(): Database { Database((c: Change) => Sent, (c: Change) => true) }

  /** The first revision of a document is announced, wanted and sent; then the second one is found. */
  function Opening(deltas: bool): seq<PushEvent>
  {
    [Found([FIRST], [1], 1, false), Answer(0, false, [Wants], deltas, Willing(), false),
     Delivered(0, Willing(), false), Found([SECOND], [2], 2, false)]
  }

  /** A pusher of an otherwise empty collection. */
  function Fresher(): (s: Session)
    ensures s.Settled(1)
  {
    Started([Range(0, 1)], 0)
  }

  /** The states on the way, whatever the checkpoint. */
  function Only(s: PushState): PushState
  {
    PushState(map["d" := FIRST], map[], s.announced, s.queue, s.sending, s.awaiting, [], map[], [], [], [],
              s.completed, s.lastRead, {}, s.resumed)
  }

  lemma TakeAllOne(s: PushState, r: Change, active: bool)
    requires s.inbox == [r]
    ensures TakeAll(s, active) == s.TakeIn(active)
  {
    assert s.TakeIn(active).inbox == [];
  }

  lemma OpeningFound(s: PushState)
    requires s == Fresher().push
    ensures var t := Received(s, [FIRST], [1], 1, false, true);
            t == Only(t) && t.announced == [[FIRST]] && t.queue == t.sending == t.awaiting == [] && t.lastRead == 1
  {
    var t := s.Receive([FIRST], [1], 1, true);
    TakeAllOne(t, FIRST, true);
    assert [] + [FIRST] == [FIRST] && [] + [[FIRST]] == [[FIRST]];
    hide TakeAll, Apply, Add;
  }

  lemma OpeningAnswered(s: PushState)
    requires s == Only(s) && s.announced == [[FIRST]] && s.queue == s.sending == s.awaiting == []
    ensures var t := SendAll(RespondAll(s.Answered(0), [Wants], Willing(), true), 1, false, Willing(), true);
            t == Only(t) && t.sending == [FIRST] && t.announced == [] && t.queue == t.awaiting == []
            && t.lastRead == s.lastRead
  {
    hide PushState.Finish;
    var a := s.Answered(0);
    assert a.hand == [FIRST] && a.announced == [];
    var b := Respond(a, Wants, Willing(), true);
    assert b.hand == [] && b.queue == [FIRST];
    assert RespondAll(a, [Wants], Willing(), true) == b;
    var c := SendOne(b.Dequeue(), Willing(), true);
    assert c.queue == [] && c.hand == [] && c.sending == [FIRST];
  }

  lemma OpeningWaits(s: PushState)
    requires s == Only(s) && s.awaiting == [FIRST] && s.announced == [] && s.queue == s.sending == [] && s.lastRead == 1
    ensures var t := Received(s, [SECOND], [2], 2, false, true);
            t == s.(next := map["d" := SECOND], lastRead := 2, completed := t.completed)
  {
    var t := s.Receive([SECOND], [2], 2, true);
    TakeAllOne(t, SECOND, true);
    hide TakeAll, Apply, Add;
  }

  lemma RunFour(s: Session, a: PushEvent, b: PushEvent, c: PushEvent, d: PushEvent, max: nat, active: bool)
    requires s.Settled(max)
    ensures RunTo(s, [a, b, c, d], max, active)
         == s.Next(a, max, active).Next(b, max, active).Next(c, max, active).Next(d, max, active)
  {
    hide Session.Next;
    RunMore(s, [], a, max, active);
    RunMore(s, [a], b, max, active);
    RunMore(s, [a, b], c, max, active);
    RunMore(s, [a, b, c], d, max, active);
    assert [] + [a] == [a] && [a] + [b] == [a, b] && [a, b] + [c] == [a, b, c] && [a, b, c] + [d] == [a, b, c, d];
  }

  lemma OpeningDelivered(s: PushState)
    requires s == Only(s) && s.sending == [FIRST] && s.announced == [] && s.queue == s.awaiting == []
    ensures var t := SendAll(s.Transmitted(0), 1, false, Willing(), true);
            t == s.(sending := [], awaiting := [FIRST])
  {
  }

  /** Revision 1 is at one of the places of the pipeline, and nothing else is there. */
  ghost predicate Alone(s: PushState, announced: bool, sending: bool, awaiting: bool)
  {
    && s == Only(s) && s.queue == [] && s.lastRead == 1
    && s.announced == (if announced then [[FIRST]] else [])
    && s.sending == (if sending then [FIRST] else []) && s.awaiting == (if awaiting then [FIRST] else [])
  }

  lemma OpeningHalf(deltas: bool)
    ensures var es, s0 := Opening(deltas), Fresher();
            var s2 := s0.Next(es[0], 1, true).Next(es[1], 1, true);
            && Alone(s2.push, false, true, false)
            && s2.deltasOK == deltas && s2.deltaOK == (if deltas then {FIRST} else {}) && s2.retried == {}
  {
    var es, s0 := Opening(deltas), Fresher();
    hide Received, SendAll, RespondAll;
    OpeningFound(s0.push);
    var s1 := s0.Next(es[0], 1, true);
    assert Alone(s1.push, true, false, false);
    OpeningAnswered(s1.push);
    AllowedMore({}, [FIRST], 0, deltas);
    assert [FIRST][..1] == [FIRST] && [FIRST][..0] == [];
  }

  lemma OpeningRest(s: Session, deltas: bool)
    requires Alone(s.push, false, true, false)
    ensures var es := Opening(deltas);
            var t := s.Next(es[2], 1, true).Next(es[3], 1, true);
            && t == s.(push := t.push)
            && t.push == s.push.(next := map["d" := SECOND], lastRead := 2, completed := t.push.completed,
                                 sending := [], awaiting := [FIRST])
  {
    hide Received, SendAll;
    OpeningDelivered(s.push);
    OpeningWaits(s.Next(Opening(deltas)[2], 1, true).push);
  }

  /** After the opening the first revision awaits its reply and the second one waits for it. */
  ghost predicate BothKnown(s: PushState)
  {
    s == PushState(map["d" := FIRST], map["d" := SECOND], [], [], [], [FIRST], [], map[], [], [], [], s.completed, 2, {},
                   s.resumed)
  }

  lemma OpeningRun(deltas: bool)
    ensures var s := RunTo(Fresher(), Opening(deltas), 1, true);
            BothKnown(s.push) && s.deltaOK == (if deltas then {FIRST} else {}) && s.retried == {}
  {
    var es, s0 := Opening(deltas), Fresher();
    RunFour(s0, es[0], es[1], es[2], es[3], 1, true);
    hide RunTo, Session.Next;
    OpeningHalf(deltas);
    OpeningRest(s0.Next(es[0], 1, true).Next(es[1], 1, true), deltas);
  }

  /** What happens in the opening is neither of the two events, so what holds is kept. */
  lemma OpeningKeeps(deltas: bool)
    ensures RunTo(Fresher(), Opening(deltas), 1, true).push.Valid(true)
  {
    FresherValid();
    hide PushState.Valid, RunTo;
    RunKeeps(Fresher(), Opening(deltas), 1, true);
  }

  lemma FresherValid()
    ensures Fresher().push.Valid(true)
  {
    Initial();
    hide Has, Canonical;
  }

  /** The first revision, sent as a delta, is refused as such while the second one waits: then both are in
      the pipeline. */
  lemma DeltaRetryDoubles()
    ensures var e := Replied(0, DeltaFailed, Willing(), true);
            var s := RunTo(Fresher(), Opening(true), 1, true);
            s.push.Valid(true) && s.Repeats(e) && !RunTo(Fresher(), Opening(true) + [e], 1, true).push.Valid(true)
  {
    hide PushState.Valid, RunTo, Session.Next, Session.Repeats, Opening, Fresher, BothKnown;
    var e := Replied(0, DeltaFailed, Willing(), true);
    OpeningRun(true);
    OpeningKeeps(true);
    DeltaRepeats(RunTo(Fresher(), Opening(true), 1, true));
    RunBreaks(Fresher(), Opening(true), e, 1, true);
  }

  lemma DeltaRepeats(s: Session)
    requires BothKnown(s.push) && s.deltaOK == {FIRST}
    ensures s.Repeats(Replied(0, DeltaFailed, Willing(), true))
  {
  }

  /** The first revision is forbidden, and to be retried; the second one meets a conflict, which is
      remembered; being idle, the pusher takes the first one in again. */
  function Conflicted(): seq<PushEvent>
  {
    Opening(false) + [Replied(0, Forbidden, Willing(), true)]
    + [Answer(0, false, [Conflict(Later)], false, Willing(), true)] + [Idle]
  }

  lemma ForbiddenReply(s: Session)
    requires BothKnown(s.push) && s.retried == {} && s.Settled(1)
    ensures var t := s.Next(Replied(0, Forbidden, Willing(), true), 1, true).push;
            t == PushState(map["d" := SECOND], map[], [[SECOND]], [], [], [], [], map[], [FIRST], [], [],
                           t.completed, 2, {1}, t.resumed)
  {
    hide Add, Remove;
    var p := s.push.Replied(0);
    assert p.awaiting == [] && p.hand == [FIRST];
    var q := Finished(p, false, Willing(), true);
    assert [] + [[SECOND]] == [[SECOND]] && [] + [FIRST] == [FIRST];
    assert q.docs == map["d" := SECOND] && q.next == map[];
    assert q.hand == [];
  }

  lemma ConflictAnswer(s: Session)
    requires s.Settled(1)
    requires s.push == PushState(map["d" := SECOND], map[], [[SECOND]], [], [], [], [], map[], [FIRST], [], [],
                                 s.push.completed, 2, {1}, s.push.resumed)
    ensures var t := s.Next(Answer(0, false, [Conflict(Later)], false, Willing(), true), 1, true).push;
            t == PushState(map[], map[], [], [], [], [], [], map["d" := SECOND], [FIRST], [], [],
                           t.completed, 2, {1}, t.resumed)
  {
    hide Add, Remove;
    var p := s.push.Answered(0);
    assert p.announced == [] && p.hand == [SECOND];
    var q := Finished(p, true, Willing(), true);
    assert q.docs == map[] && q.hand == [];
    var r := Respond(p, Conflict(Later), Willing(), true);
    AllResponded(r, [], Willing(), true);
    assert [Conflict(Later)][1..] == [];
  }

  lemma IdleAgain(s: Session)
    requires s.Settled(1)
    requires s.push == PushState(map[], map[], [], [], [], [], [], map["d" := SECOND], [FIRST], [], [],
                                 s.push.completed, 2, {1}, s.push.resumed)
    ensures var t := s.Next(Idle, 1, true).push;
            t == PushState(map["d" := FIRST], map[], [[FIRST]], [], [], [], [], map["d" := SECOND], [], [], [],
                           t.completed, 2, {1}, t.resumed)
  {
    var t := s.push.RetryAll();
    TakeAllOne(t, FIRST, true);
    assert [] + [FIRST] == [FIRST] && [] + [[FIRST]] == [[FIRST]];
    hide TakeAll, Add;
  }

  lemma ConflictedEvents(i: nat)
    requires i < |Conflicted()|
    ensures !(Conflicted()[i].Replied? && Conflicted()[i].reply.DeltaFailed?) && !Conflicted()[i].RemoteChanged?
  {
  }

  lemma ConflictedKeeps()
    ensures RunTo(Fresher(), Conflicted(), 1, true).push.Valid(true)
  {
    FresherValid();
    hide RunTo, PushState.Valid, Conflicted, Fresher;
    forall i | 0 <= i < |Conflicted()| ensures !RunTo(Fresher(), Conflicted()[..i], 1, true).Repeats(Conflicted()[i]) {
      ConflictedEvents(i);
    }
    RunKeeps(Fresher(), Conflicted(), 1, true);
  }

  lemma ConflictedRun()
    ensures var s := RunTo(Fresher(), Conflicted(), 1, true).push;
            s.docs == map["d" := FIRST] && s.conflicts == map["d" := SECOND] && s.next == map[] && s.retry == []
  {
    var es := Opening(false);
    var a, b := Replied(0, Forbidden, Willing(), true), Answer(0, false, [Conflict(Later)], false, Willing(), true);
    OpeningRun(false);
    RunMore(Fresher(), es, a, 1, true);
    RunMore(Fresher(), es + [a], b, 1, true);
    RunMore(Fresher(), es + [a] + [b], Idle, 1, true);
    assert Conflicted() == es + [a] + [b] + [Idle];
    hide RunTo, Session.Next, Opening, Fresher, Conflicted, BothKnown;
    ForbiddenReply(RunTo(Fresher(), es, 1, true));
    ConflictAnswer(RunTo(Fresher(), es + [a], 1, true));
    IdleAgain(RunTo(Fresher(), es + [a] + [b], 1, true));
  }

  /** Then the remote revision changes, and the second one is proposed again beside the first. */
  lemma ProposedConflictDoubles()
    ensures var e := RemoteChanged("d", IsAncestor);
            var s := RunTo(Fresher(), Conflicted(), 1, true);
            s.push.Valid(true) && s.Repeats(e) && !RunTo(Fresher(), Conflicted() + [e], 1, true).push.Valid(true)
  {
    hide PushState.Valid, RunTo, Session.Next, Session.Repeats, Conflicted, Fresher;
    var e := RemoteChanged("d", IsAncestor);
    ConflictedRun();
    ConflictedKeeps();
    ConflictRepeats(RunTo(Fresher(), Conflicted(), 1, true));
    RunBreaks(Fresher(), Conflicted(), e, 1, true);
  }

  lemma ConflictRepeats(s: Session)
    requires s.push.docs == map["d" := FIRST] && s.push.conflicts == map["d" := SECOND]
    requires s.push.next == map[] && s.push.retry == [] && s.push.inbox == []
    ensures s.Repeats(RemoteChanged("d", IsAncestor))
  {
  }

  /** The changes of one call of the feed, `given` being all it has handed over since, are as `GotChanges`
      asks for. */
  lemma FeedIsFresh(given: seq<Change>, revs: seq<Change>, sequences: seq<int>, floor: int, max: int)
    requires Ordered(given + revs) && FeedLaws.Between(revs, floor, max) && 0 <= floor
    requires |sequences| == |revs| && forall i :: 0 <= i < |revs| ==> sequences[i] == revs[i].sequence
    ensures Fresh(revs, sequences, floor, max)
  {
    assert forall i :: 0 <= i < |revs| ==> revs[i] in revs && revs[i] == (given + revs)[|given| + i];
    forall i, j | 0 <= i < j < |revs| ensures revs[i].sequence < revs[j].sequence {
      assert (given + revs)[|given| + i].sequence < (given + revs)[|given| + j].sequence;
    }
  }
}
