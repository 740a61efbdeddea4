/** Replicator/Puller.cc: one method per event the actor handles. */
module Pullers {
  import opened Common
  import opened RemoteSequences
  import opened RemoteSequenceSets
  import opened PullLog
  import opened IncomingRevs

  /** An announced change; the peer is asked for its revision when `bodySize` is positive. */
  datatype ChangeSequence = ChangeSequence(sequence: RemoteSequence, bodySize: nat) {
    predicate Requested() { bodySize > 0 }
  }

  /** A "rev" message. */
  datatype Message = Message(id: nat, sequence: RemoteSequence)

  /** The events of a Puller's life. */
  datatype PullerEvent =
    | Expected(changes: seq<ChangeSequence>)
    | GotRev(msg: Message)
    | GotNoRev(s: RemoteSequence)
    | Revoked(docs: seq<nat>)
    | Inserted(id: int)
    | Handled(id: int, transient: bool)
    | DeliverProvisional
    | DeliverFinished
    | ReRequested
    | Closed

  function Sequences(msgs: seq<Message>): (r: seq<RemoteSequence>)
    ensures |r| == |msgs| && forall i :: 0 <= i < |msgs| ==> r[i] == msgs[i].sequence
  {
    seq(|msgs|, i requires 0 <= i < |msgs| => msgs[i].sequence)
  }

  /** What a list of announced changes does to the log: a revision nobody asked for needs no more
      work. */
  function ExpectEvents(changes: seq<ChangeSequence>): (events: seq<Event<RemoteSequence>>)
  {
    if changes == [] then []
    else
      var c := changes[|changes| - 1];
      ExpectEvents(changes[..|changes| - 1]) + [Announced(c.sequence)]
      + if c.Requested() then [] else [Completed(c.sequence)]
  }

  function RequestedCount(changes: seq<ChangeSequence>): (n: nat)
  {
    if changes == [] then 0
    else RequestedCount(changes[..|changes| - 1]) + if changes[|changes| - 1].Requested() then 1 else 0
  }

  /** The changes that were asked for, by their places. */
  function RequestedAt(changes: seq<ChangeSequence>): set<int>
  {
    set i | 0 <= i < |changes| && changes[i].Requested()
  }

  lemma {:induction false} RequestedCounts(changes: seq<ChangeSequence>)
    ensures RequestedCount(changes) == |RequestedAt(changes)|
  {
    if changes != [] {
      var k := |changes| - 1;
      RequestedCounts(changes[..k]);
      var front := RequestedAt(changes[..k]);
      assert forall i :: 0 <= i < k ==> changes[..k][i] == changes[i];
      assert RequestedAt(changes) == front + if changes[k].Requested() then {k} else {};
    }
  }

  /** One announced change. */
  function Expect(log: Log<RemoteSequence>, c: ChangeSequence): (r: Log<RemoteSequence>)
    requires log.Valid()
  {
    if c.Requested() then Announce(log, c.sequence) else Complete(Announce(log, c.sequence), c.sequence)
  }

  lemma ExpectOneMore(log: Log<RemoteSequence>, changes: seq<ChangeSequence>, i: nat)
    requires log.Valid() && i < |changes|
    ensures Replay(log, ExpectEvents(changes[..i + 1])) == Expect(Replay(log, ExpectEvents(changes[..i])), changes[i])
  {
    assert changes[..i + 1][..i] == changes[..i];
    var events, c := ExpectEvents(changes[..i]), changes[i];
    ReplayOneMore(log, events, Announced(c.sequence));
    ReplayOneMore(log, events + [Announced(c.sequence)], Completed(c.sequence));
    assert ExpectEvents(changes[..i + 1])
        == if c.Requested() then events + [Announced(c.sequence)]
           else events + [Announced(c.sequence)] + [Completed(c.sequence)];
  }

  /** What collecting one worker does to the log: a transient failure completes nothing. */
  function FinishEvent(w: Worker): (events: seq<Event<RemoteSequence>>)
  {
    if w.errorIsTransient then [] else [Completed(w.sequence)]
  }

  lemma ReplayFinish(log: Log<RemoteSequence>, events: seq<Event<RemoteSequence>>, w: Worker)
    requires log.Valid()
    ensures Replay(log, events + FinishEvent(w))
         == if w.errorIsTransient then Replay(log, events) else Complete(Replay(log, events), w.sequence)
  {
    ReplayOneMore(log, events, Completed(w.sequence));
    assert events + [] == events;
  }

  /** All that have finished are collected, in turn. */
  function CollectAll(st: Staff, max: nat): (r: (Staff, seq<Event<RemoteSequence>>))
    requires st.Valid(max)
    ensures r.0.Valid(max) && r.0.returning == []
    decreases |st.returning|
  {
    if st.returning == [] then (st, [])
    else
      st.CollectOneKeepsValid(max);
      var w := st.workers[st.returning[0]];
      var (st', events) := CollectAll(st.CollectOne(), max);
      (st', FinishEvent(w) + events)
  }

  lemma CollectFirstOf(st: Staff, max: nat, events: seq<Event<RemoteSequence>>)
    requires st.Valid(max) && st.returning != []
    ensures st.returning[0] in st.workers && st.CollectOne().Valid(max)
    ensures |st.CollectOne().returning| < |st.returning|
    ensures var (r, rest) := CollectAll(st.CollectOne(), max);
            && CollectAll(st, max).0 == r
            && events + CollectAll(st, max).1 == events + FinishEvent(st.workers[st.returning[0]]) + rest
  {
    st.CollectOneKeepsValid(max);
  }

  lemma CollectNone(st: Staff, max: nat, events: seq<Event<RemoteSequence>>)
    requires st.Valid(max) && st.returning == []
    ensures CollectAll(st, max).0 == st && events + CollectAll(st, max).1 == events
  {
  }

  lemma ReplayNone(st: Staff, max: nat, log: Log<RemoteSequence>)
    requires st.Valid(max) && st.returning == [] && log.Valid()
    ensures Replay(log, CollectAll(st, max).1) == log
  {
  }

  /** What collecting leaves behind: the collected objects are free, the spare ones untouched. */
  lemma {:induction false} CollectedAreFree(st: Staff, max: nat)
    requires st.Valid(max)
    ensures var r := CollectAll(st, max).0;
            && r.spare == st.spare && r.nextId == st.nextId && r.workers.Keys <= st.workers.Keys
            && (forall k :: 0 <= k < |st.returning| ==> st.returning[k] !in r.workers)
    ensures Distinct(st.returning)
    ensures forall k :: 0 <= k < |st.returning| ==> st.returning[k] < st.nextId && st.returning[k] !in st.spare
    decreases |st.returning|
  {
    if st.returning != [] {
      st.CollectOneKeepsValid(max);
      var st' := st.CollectOne();
      CollectedAreFree(st', max);
      assert forall k :: 0 < k < |st.returning| ==> st.returning[k] == st'.returning[k - 1];
    }
  }

  /** `n` revocations carry no sequence. */
  function Nulls(n: nat): (r: seq<RemoteSequence>)
    ensures |r| == n
  {
    seq(n, _ => NullSequence)
  }

  lemma NullsMore(n: nat)
    ensures Nulls(n + 1)[..n] == Nulls(n) && Nulls(n + 1)[n] == NullSequence
  {
  }

  lemma SequencesMore(msgs: seq<Message>, k: nat)
    requires k < |msgs|
    ensures var r := Sequences(msgs[..k + 1]);
            r[..k] == Sequences(msgs[..k]) && r[k] == msgs[k].sequence
  {
  }

  lemma HiredMore(staff: Staff, msgs: seq<Message>, k: nat)
    requires k < |msgs|
    ensures staff.HireAll(false, Sequences(msgs[..k + 1]))
         == staff.HireAll(false, Sequences(msgs[..k])).Hire(false, msgs[k].sequence)
  {
    SequencesMore(msgs, k);
  }

  // ---- The Puller as a value

  /** What decides what a Puller does next: its connection, the "rev" messages it still awaits, those and the
      revocations that wait for room, and its workers. */
  datatype PullState = PullState(connected: bool, pending: int, waiting: seq<Message>, waitingRevoked: seq<nat>,
                                 staff: Staff) {
    ghost predicate Valid(max: nat) { staff.Valid(max) && |waiting| <= pending }

    /** `maybeStartIncomingRevs`: as many as the limits allow are taken up. */
    ghost function Restart(max: nat): (s: PullState)
      requires Valid(max)
      ensures s.Valid(max)
    {
      var k := if connected then Min(|waiting|, staff.revs.Room(max)) else 0;
      var n := if connected then Min(|waitingRevoked|, staff.revoked.Room(max)) else 0;
      staff.HireAllKeepsValid(max, false, Sequences(waiting[..k]));
      staff.HireAll(false, Sequences(waiting[..k])).HireAllKeepsValid(max, true, Nulls(n));
      PullState(connected, pending - k, waiting[k..],
                if connected || !staff.revoked.HasRoom(max) then waitingRevoked[n..] else [],
                staff.HireAll(false, Sequences(waiting[..k])).HireAll(true, Nulls(n)))
    }

    /** A "rev" message that answers a request not answered yet. */
    ghost function TakeRev(msg: Message, max: nat): (s: PullState)
      requires Valid(max) && |waiting| < pending
      ensures s.Valid(max)
    {
      if !staff.revs.HasRoom(max) then this.(waiting := waiting + [msg])
      else if !connected then this.(pending := pending - 1)
      else
        staff.HireKeepsValid(max, false, msg.sequence);
        this.(pending := pending - 1, staff := staff.Hire(false, msg.sequence))
    }

    ghost function Revoke(docs: seq<nat>, max: nat): (s: PullState)
      requires Valid(max)
      ensures s.Valid(max)
    {
      if !connected then
        this.(waitingRevoked := waitingRevoked + if staff.revoked.HasRoom(max) then [] else docs)
      else
        var k := Min(|docs|, staff.revoked.Room(max));
        staff.HireAllKeepsValid(max, true, Nulls(k));
        this.(waitingRevoked := waitingRevoked + docs[k..], staff := staff.HireAll(true, Nulls(k)))
    }

    /** `_revsFinished` */
    ghost function Collect(max: nat): (s: PullState)
      requires Valid(max)
      ensures s.Valid(max)
    {
      if staff.returning == [] then this
      else
        CollectedAreFree(staff, max);
        CollectAll(staff, max).0.RespareKeepsValid(max, staff.returning);
        this.(staff := CollectAll(staff, max).0.Respare(staff.returning, max)).Restart(max)
    }

    ghost function Deliver(max: nat): (s: PullState)
      requires Valid(max)
      ensures s.Valid(max)
    {
      staff.DeliverKeepsValid(max);
      this.(staff := staff.Deliver()).Restart(max)
    }

    predicate CanInsert(id: int) { id in staff.workers && !staff.workers[id].provisional && !staff.workers[id].finished }

    predicate CanFinish(id: int) { id in staff.workers && !staff.workers[id].finished }

    /** One event, if it can happen now. */
    ghost function Next(e: PullerEvent, max: nat): (s: PullState)
      requires Valid(max)
      ensures s.Valid(max)
    {
      match e
      case Expected(changes) => this.(pending := pending + RequestedCount(changes))
      case GotRev(msg) => if |waiting| < pending then TakeRev(msg, max) else this
      case GotNoRev(_) => if |waiting| < pending then this.(pending := pending - 1) else this
      case Revoked(docs) => Revoke(docs, max)
      case Inserted(id) =>
        if CanInsert(id) then staff.InsertKeepsValid(max, id); this.(staff := staff.Insert(id)) else this
      case Handled(id, transient) =>
        if CanFinish(id) then staff.FinishKeepsValid(max, id, transient); this.(staff := staff.Finish(id, transient))
        else this
      case DeliverProvisional => Deliver(max)
      case DeliverFinished => Collect(max)
      case ReRequested => this.(pending := pending + 1)
      case Closed => this.(connected := false)
    }

    /** What an event does to the log of announced sequences. */
    ghost function Logs(e: PullerEvent, passive: bool, max: nat): seq<Event<RemoteSequence>>
      requires Valid(max)
    {
      match e
      case Expected(changes) => if passive then [] else ExpectEvents(changes)
      case GotNoRev(s) => if |waiting| < pending && s.NonNull() then [Completed(s)] else []
      case DeliverFinished => if passive then [] else CollectAll(staff, max).1
      case _ => []
    }

    /** The "rev" messages an event brings. */
    function Brings(e: PullerEvent): seq<Message>
    {
      if e.GotRev? && |waiting| < pending then [e.msg] else []
    }

    /** An event that settles `s`: nobody asked for it, the peer has not got it, or a worker that was not
        hindered by a transient error is done with it. */
    ghost predicate Settles(e: PullerEvent, s: RemoteSequence)
    {
      match e
      case Expected(changes) => Unasked(changes, s)
      case GotNoRev(t) => t == s && |waiting| < pending
      case DeliverFinished => DoneWith(staff, s)
      case _ => false
    }
  }

  ghost predicate Unasked(changes: seq<ChangeSequence>, s: RemoteSequence)
  {
    exists c :: c in changes && c.sequence == s && !c.Requested()
  }

  ghost predicate DoneWith(st: Staff, s: RemoteSequence)
  {
    exists id :: id in st.returning && id in st.workers && Succeeded(st.workers[id], s)
  }

  ghost predicate Succeeded(w: Worker, s: RemoteSequence) { w.finished && !w.errorIsTransient && w.sequence == s }

  /** As many workers that have not inserted their revision are at work as may be, or as many in all. */
  ghost predicate FullyAtWork(ws: Workers, revoked: bool, max: nat)
  {
    |Busy(ws, revoked)| >= MAX_ACTIVE_INCOMING_REVS || |All(ws, revoked)| >= max
  }

  /** When the counts are delivered, there is no room only for that reason. */
  lemma ExactWhenDelivered(st: Staff, max: nat)
    requires st.Valid(max) && forall r :: st.LaneOf(r).provisional == 0
    ensures forall r :: st.LaneOf(r).Exact(st.workers, r)
    ensures forall r :: !st.LaneOf(r).HasRoom(max) <==> FullyAtWork(st.workers, r, max)
  {
  }

  lemma RestartCounts(s: PullState, max: nat)
    requires s.Valid(max)
    ensures forall r :: s.Restart(max).staff.LaneOf(r).provisional == s.staff.LaneOf(r).provisional
  {
    var k := if s.connected then Min(|s.waiting|, s.staff.revs.Room(max)) else 0;
    var n := if s.connected then Min(|s.waitingRevoked|, s.staff.revoked.Room(max)) else 0;
    s.staff.HireAllKeepsValid(max, false, Sequences(s.waiting[..k]));
    s.staff.HireAll(false, Sequences(s.waiting[..k])).HireAllKeepsValid(max, true, Nulls(n));
    hide Staff.Valid, Staff.HireAll;
  }

  /** The state after a run of events, what they did to the log, and the messages they brought. */
  ghost function RunTo(s: PullState, events: seq<PullerEvent>, max: nat): (s': PullState)
    requires s.Valid(max)
    ensures s'.Valid(max)
  {
    if events == [] then s else RunTo(s, events[..|events| - 1], max).Next(events[|events| - 1], max)
  }

  ghost function Trace(s: PullState, events: seq<PullerEvent>, passive: bool, max: nat): seq<Event<RemoteSequence>>
    requires s.Valid(max)
  {
    if events == [] then []
    else
      var front, e := events[..|events| - 1], events[|events| - 1];
      Trace(s, front, passive, max) + RunTo(s, front, max).Logs(e, passive, max)
  }

  ghost function Arrivals(s: PullState, events: seq<PullerEvent>, max: nat): seq<Message>
    requires s.Valid(max)
  {
    if events == [] then []
    else
      var front, e := events[..|events| - 1], events[|events| - 1];
      Arrivals(s, front, max) + RunTo(s, front, max).Brings(e)
  }

  // ---- Progress

  /** When every worker has finished, collecting them and delivering the counts starts as many of the messages that wait
      as the limits allow at all. */
  lemma Drains(s: PullState, max: nat)
    requires s.Valid(max) && s.connected && forall id :: id in s.staff.workers ==> s.staff.workers[id].finished
    ensures var t := s.Next(DeliverFinished, max).Next(DeliverProvisional, max);
            var k := Min(|s.waiting|, Min(MAX_ACTIVE_INCOMING_REVS, max));
            && t.waiting == s.waiting[k..] && |All(t.staff.workers, false)| == |Busy(t.staff.workers, false)| == k
  {
    hide Staff.Valid, PullState.Collect, PullState.Deliver, All, Busy;
    var u := s.Collect(max);
    Collected(s, max);
    DeliveredLane(u, max);
    TakesMost(s.waiting, |All(u.staff.workers, false)|, max);
  }

  lemma TakesMost(waiting: seq<Message>, j: nat, max: nat)
    requires j <= Min(|waiting|, Min(MAX_ACTIVE_INCOMING_REVS, max))
    ensures var most := Min(|waiting|, Min(MAX_ACTIVE_INCOMING_REVS, max));
            var k := Min(|waiting| - j, if j < MAX_ACTIVE_INCOMING_REVS && j < max
                                        then Min(MAX_ACTIVE_INCOMING_REVS - j, max - j) else 0);
            j + k == most && waiting[j..][k..] == waiting[most..]
  {
  }

  lemma AllCollected(st: Staff, max: nat)
    requires st.Valid(max) && forall id :: id in st.workers ==> st.workers[id].finished
    ensures CollectAll(st, max).0.workers == map[]
  {
    CollectedAreFree(st, max);
    assert forall id :: id in st.workers ==> id in st.returning;
    hide CollectAll;
    var ws := CollectAll(st, max).0.workers;
    assert forall id :: id in ws ==> id in ws.Keys;
  }

  /** Some messages start when the workers are collected, none of them with anything inserted. */
  lemma Collected(s: PullState, max: nat)
    requires s.Valid(max) && s.connected && forall id :: id in s.staff.workers ==> s.staff.workers[id].finished
    ensures var u := s.Collect(max);
            var j := |All(u.staff.workers, false)|;
            && j == |Busy(u.staff.workers, false)| <= Min(|s.waiting|, Min(MAX_ACTIVE_INCOMING_REVS, max))
            && u.waiting == s.waiting[j..] && u.connected
  {
    AllCollected(s.staff, max);
    if s.staff.returning == [] {
      NoWorkers(s.staff, max);
    } else {
      CollectedAreFree(s.staff, max);
      CollectAll(s.staff, max).0.RespareKeepsValid(max, s.staff.returning);
      var v := s.(staff := CollectAll(s.staff, max).0.Respare(s.staff.returning, max));
      hide CollectAll, Staff.Respare;
      StartedFresh(v, max);
    }
  }

  lemma NoWorkers(st: Staff, max: nat)
    requires st.Valid(max) && st.returning == [] && forall id :: id in st.workers ==> st.workers[id].finished
    ensures st.workers == map[] && All(st.workers, false) == {} && Busy(st.workers, false) == {}
  {
    assert forall id :: id in st.workers ==> id in st.returning;
  }

  /** From no workers at all. */
  lemma StartedFresh(v: PullState, max: nat)
    requires v.Valid(max) && v.connected && v.staff.workers == map[]
    ensures var u := v.Restart(max);
            var j := |All(u.staff.workers, false)|;
            && j == |Busy(u.staff.workers, false)| <= Min(|v.waiting|, Min(MAX_ACTIVE_INCOMING_REVS, max))
            && u.waiting == v.waiting[j..] && u.connected
  {
    assert All(v.staff.workers, false) == {} && Busy(v.staff.workers, false) == {};
    RestartLane(v, max);
  }

  /** What starting again does to the counters. */
  lemma RestartLane(v: PullState, max: nat)
    requires v.Valid(max) && v.connected
    ensures var k, u := Min(|v.waiting|, v.staff.revs.Room(max)), v.Restart(max);
            && u.waiting == v.waiting[k..] && u.connected && u.staff.revs == v.staff.revs.Grown(k)
            && |All(u.staff.workers, false)| == |All(v.staff.workers, false)| + k
            && |Busy(u.staff.workers, false)| == |Busy(v.staff.workers, false)| + k
  {
    var k := Min(|v.waiting|, v.staff.revs.Room(max));
    v.staff.HireAllKeepsValid(max, false, Sequences(v.waiting[..k]));
    var n := Min(|v.waitingRevoked|, v.staff.revoked.Room(max));
    v.staff.HireAll(false, Sequences(v.waiting[..k])).HireAllKeepsValid(max, true, Nulls(n));
  }

  lemma DeliveredLane(u: PullState, max: nat)
    requires u.Valid(max) && u.connected
    ensures var t, j, b := u.Deliver(max), |All(u.staff.workers, false)|, |Busy(u.staff.workers, false)|;
            var k := Min(|u.waiting|, if b < MAX_ACTIVE_INCOMING_REVS && j < max
                                      then Min(MAX_ACTIVE_INCOMING_REVS - b, max - j) else 0);
            && t.waiting == u.waiting[k..]
            && |All(t.staff.workers, false)| == j + k && |Busy(t.staff.workers, false)| == b + k
  {
    u.staff.DeliverKeepsValid(max);
    assert u.staff.Deliver().LaneOf(false).Exact(u.staff.workers, false);
    RestartLane(u.(staff := u.staff.Deliver()), max);
    hide PullState.Restart, Staff.Valid;
  }

  // ---- Why a sequence is settled

  ghost predicate Announces(changes: seq<ChangeSequence>, s: RemoteSequence) { exists c :: c in changes && c.sequence == s }

  lemma {:induction false} ExpectedOnly(changes: seq<ChangeSequence>, s: RemoteSequence)
    ensures Completed(s) in ExpectEvents(changes) <==> Unasked(changes, s)
    ensures Announced(s) in ExpectEvents(changes) <==> Announces(changes, s)
  {
    if changes != [] {
      var k := |changes| - 1;
      ExpectedOnly(changes[..k], s);
      assert changes[k] in changes && forall c :: c in changes[..k] ==> c in changes;
    }
  }

  lemma {:induction false} CollectedOnly(st: Staff, max: nat, s: RemoteSequence)
    requires st.Valid(max)
    ensures Completed(s) in CollectAll(st, max).1 <==> DoneWith(st, s)
    ensures Announced(s) !in CollectAll(st, max).1
    decreases |st.returning|
  {
    if st.returning != [] {
      st.CollectOneKeepsValid(max);
      var id, st' := st.returning[0], st.CollectOne();
      CollectedOnly(st', max, s);
      ReturnedAreFinished(st, max);
      hide Staff.Valid;
      assert id in st.returning;
      if DoneWith(st', s) {
        var i :| i in st'.returning && i in st'.workers && Succeeded(st'.workers[i], s);
        assert i in st.returning && st.workers[i] == st'.workers[i];
      }
      if DoneWith(st, s) {
        var i :| i in st.returning && i in st.workers && Succeeded(st.workers[i], s);
        if i != id { assert i in st'.returning && st'.workers[i] == st.workers[i]; }
      }
    }
  }

  lemma ReturnedAreFinished(st: Staff, max: nat)
    requires st.Valid(max) && st.returning != []
    ensures st.returning[0] in st.workers && st.workers[st.returning[0]].finished
  {
  }

  /** An event completes just what it settles, and announces just what it says; a passive Puller keeps no account of
      its own, and a message without a sequence completes none. */
  lemma LogsExactly(st: PullState, e: PullerEvent, passive: bool, max: nat, s: RemoteSequence)
    requires st.Valid(max)
    ensures Completed(s) in st.Logs(e, passive, max)
       <==> st.Settles(e, s) && if e.GotNoRev? then s.NonNull() else !passive
    ensures Announced(s) in st.Logs(e, passive, max) <==> e.Expected? && Announces(e.changes, s) && !passive
  {
    if e.Expected? { ExpectedOnly(e.changes, s); }
    CollectedOnly(st.staff, max, s);
    hide Staff.Valid;
  }

  /** The event of the run that an event of the log comes from. */
  lemma {:induction false} TraceOrigin(s: PullState, events: seq<PullerEvent>, passive: bool, max: nat, j: nat)
    returns (k: nat)
    requires s.Valid(max) && j < |Trace(s, events, passive, max)|
    ensures k < |events| && Trace(s, events, passive, max)[j] in RunTo(s, events[..k], max).Logs(events[k], passive, max)
    ensures |Trace(s, events[..k], passive, max)| <= j < |Trace(s, events[..k + 1], passive, max)|
  {
    hide PullState.Logs, PullState.Next, PullState.Valid;
    var n := |events| - 1;
    if j < |Trace(s, events[..n], passive, max)| {
      k := TraceOrigin(s, events[..n], passive, max, j);
      assert events[..n][..k] == events[..k] && events[..n][..k + 1] == events[..k + 1];
    } else {
      k := n;
      assert events[..n + 1] == events;
    }
  }

  lemma {:induction false} TraceGrows(s: PullState, events: seq<PullerEvent>, passive: bool, max: nat, k: nat)
    requires s.Valid(max) && k <= |events|
    ensures |Trace(s, events[..k], passive, max)| <= |Trace(s, events, passive, max)|
  {
    hide PullState.Logs, PullState.Next, PullState.Valid;
    if k < |events| {
      TraceGrows(s, events[..|events| - 1], passive, max, k);
      assert events[..|events| - 1][..k] == events[..k];
    } else {
      assert events[..k] == events;
    }
  }

  lemma TraceUpTo(s: PullState, events: seq<PullerEvent>, passive: bool, max: nat, k: nat, a: nat)
    requires s.Valid(max) && k <= a <= |events|
    ensures |Trace(s, events[..k], passive, max)| <= |Trace(s, events[..a], passive, max)|
  {
    TraceGrows(s, events[..a], passive, max, k);
    assert events[..a][..k] == events[..k];
  }

  /** The log of a run begins with that of its first events. */
  lemma {:induction false} TracePrefix(s: PullState, events: seq<PullerEvent>, passive: bool, max: nat, k: nat)
    requires s.Valid(max) && k <= |events|
    ensures Trace(s, events[..k], passive, max) <= Trace(s, events, passive, max)
  {
    hide PullState.Logs, PullState.Next, PullState.Valid;
    if k < |events| {
      TracePrefix(s, events[..|events| - 1], passive, max, k);
      assert events[..|events| - 1][..k] == events[..k];
    } else {
      assert events[..k] == events;
    }
  }

  /** Of two events of the log, the earlier one does not come from a later event of the run. */
  lemma OriginsInOrder(s: PullState, events: seq<PullerEvent>, passive: bool, max: nat, i: nat, j: nat, a: nat, k: nat)
    requires s.Valid(max) && a < |events| && k < |events| && i <= j
    requires |Trace(s, events[..a], passive, max)| <= i && j < |Trace(s, events[..k + 1], passive, max)|
    ensures a <= k
  {
    hide PullState.Valid, Trace;
    if k < a {
      TraceUpTo(s, events, passive, max, k + 1, a);
    }
  }

  // ---- Where workers come from

  /** One of the first `n` events is a "rev" message with this sequence. */
  ghost predicate Came(events: seq<PullerEvent>, s: RemoteSequence, n: int)
  {
    exists i :: 0 <= i < n && i < |events| && events[i].GotRev? && events[i].msg.sequence == s
  }

  /** Worker `id` is at work on `q`. */
  ghost predicate AtWork(st: PullState, id: int, q: RemoteSequence)
  {
    id in st.staff.workers && !st.staff.workers[id].finished && st.staff.workers[id].sequence == q
  }

  /** Worker `id` has reported back when it was at work on just this, after the "rev" message it works on
      came; `s0` is where the run began. */
  ghost predicate Reported(s0: PullState, events: seq<PullerEvent>, max: nat, id: int, w: Worker)
    requires s0.Valid(max)
  {
    exists j :: 0 <= j < |events| && ReportedAt(s0, events, max, id, w, j)
  }

  ghost predicate ReportedAt(s0: PullState, events: seq<PullerEvent>, max: nat, id: int, w: Worker, j: nat)
    requires s0.Valid(max) && j < |events|
  {
    && events[j] == Handled(id, w.errorIsTransient) && AtWork(RunTo(s0, events[..j], max), id, w.sequence)
    && (w.revoked || Came(events, w.sequence, j))
  }

  ghost predicate Explained(s0: PullState, events: seq<PullerEvent>, max: nat, id: int, w: Worker)
    requires s0.Valid(max)
  {
    && (if w.revoked then w.sequence == NullSequence else Came(events, w.sequence, |events|))
    && (w.finished ==> Reported(s0, events, max, id, w))
  }

  ghost predicate AllExplained(s0: PullState, events: seq<PullerEvent>, max: nat, ws: Workers)
    requires s0.Valid(max)
  {
    forall id :: id in ws ==> Explained(s0, events, max, id, ws[id])
  }

  ghost predicate AllCame(events: seq<PullerEvent>, waiting: seq<Message>)
  {
    forall i :: 0 <= i < |waiting| ==> Came(events, waiting[i].sequence, |events|)
  }

  lemma CameMore(events: seq<PullerEvent>, e: PullerEvent, s: RemoteSequence, n: int)
    requires Came(events, s, n)
    ensures Came(events + [e], s, n) && (n <= |events| ==> Came(events + [e], s, |events| + 1))
  {
    var i :| 0 <= i < n && i < |events| && events[i].GotRev? && events[i].msg.sequence == s;
    assert (events + [e])[i] == events[i];
  }

  lemma ReportedMore(s0: PullState, events: seq<PullerEvent>, max: nat, e: PullerEvent, id: int, w: Worker)
    requires s0.Valid(max) && Reported(s0, events, max, id, w)
    ensures Reported(s0, events + [e], max, id, w)
  {
    hide PullState.Valid, RunTo, Came;
    var j :| 0 <= j < |events| && ReportedAt(s0, events, max, id, w, j);
    if !w.revoked { CameMore(events, e, w.sequence, j); }
    assert (events + [e])[j] == events[j] && (events + [e])[..j] == events[..j];
    assert ReportedAt(s0, events + [e], max, id, w, j);
  }

  lemma ExplainedMore(s0: PullState, events: seq<PullerEvent>, max: nat, e: PullerEvent, id: int, w: Worker)
    requires s0.Valid(max) && Explained(s0, events, max, id, w)
    ensures Explained(s0, events + [e], max, id, w)
  {
    hide PullState.Valid, Reported;
    if !w.revoked { CameMore(events, e, w.sequence, |events|); }
    if w.finished { ReportedMore(s0, events, max, e, id, w); }
  }

  lemma AllMore(s0: PullState, events: seq<PullerEvent>, max: nat, e: PullerEvent, ws: Workers, waiting: seq<Message>)
    requires s0.Valid(max) && AllExplained(s0, events, max, ws) && AllCame(events, waiting)
    ensures AllExplained(s0, events + [e], max, ws) && AllCame(events + [e], waiting)
  {
    hide Explained, Came, PullState.Valid;
    forall id | id in ws ensures Explained(s0, events + [e], max, id, ws[id]) {
      ExplainedMore(s0, events, max, e, id, ws[id]);
    }
    forall i | 0 <= i < |waiting| ensures Came(events + [e], waiting[i].sequence, |events + [e]|) {
      CameMore(events, e, waiting[i].sequence, |events|);
    }
  }

  /** New workers for messages that came, or for revocations. */
  lemma HiredExplained(s0: PullState, events: seq<PullerEvent>, max: nat, st: Staff, isRevoked: bool,
                       sequences: seq<RemoteSequence>)
    requires s0.Valid(max) && AllExplained(s0, events, max, st.workers)
    requires forall q :: q in sequences ==> if isRevoked then q == NullSequence else Came(events, q, |events|)
    ensures AllExplained(s0, events, max, st.HireAll(isRevoked, sequences).workers)
  {
    st.HiredWorkers(isRevoked, sequences);
    hide Staff.HireAll, Came, PullState.Valid, Reported;
    var ws := st.HireAll(isRevoked, sequences).workers;
    forall id | id in ws ensures Explained(s0, events, max, id, ws[id]) {
      if !(id in st.workers && ws[id] == st.workers[id]) {
        var q :| q in sequences && ws[id] == Worker(isRevoked, q, false, false, false);
      }
    }
  }

  lemma RestartExplained(s0: PullState, events: seq<PullerEvent>, max: nat, s: PullState)
    requires s0.Valid(max) && s.Valid(max)
    requires AllExplained(s0, events, max, s.staff.workers) && AllCame(events, s.waiting)
    ensures AllExplained(s0, events, max, s.Restart(max).staff.workers) && AllCame(events, s.Restart(max).waiting)
  {
    hide Staff.Valid, Came, Explained, AllExplained;
    var k := if s.connected then Min(|s.waiting|, s.staff.revs.Room(max)) else 0;
    var n := if s.connected then Min(|s.waitingRevoked|, s.staff.revoked.Room(max)) else 0;
    var seqs := Sequences(s.waiting[..k]);
    forall q | q in seqs ensures Came(events, q, |events|) {
      var i :| 0 <= i < |seqs| && seqs[i] == q;
      assert q == s.waiting[i].sequence;
    }
    HiredExplained(s0, events, max, s.staff, false, seqs);
    HiredExplained(s0, events, max, s.staff.HireAll(false, seqs), true, Nulls(n));
  }

  lemma {:induction false} CollectedExplained(s0: PullState, events: seq<PullerEvent>, max: nat, st: Staff)
    requires s0.Valid(max) && st.Valid(max) && AllExplained(s0, events, max, st.workers)
    ensures AllExplained(s0, events, max, CollectAll(st, max).0.workers)
    decreases |st.returning|
  {
    hide Explained, PullState.Valid;
    if st.returning != [] {
      st.CollectOneKeepsValid(max);
      hide Staff.Valid;
      CollectedExplained(s0, events, max, st.CollectOne());
    }
  }

  lemma FinishedExplained(s0: PullState, events: seq<PullerEvent>, max: nat, s: PullState, id: int, transient: bool)
    requires s0.Valid(max) && s == RunTo(s0, events, max) && s.CanFinish(id)
    requires AllExplained(s0, events, max, s.staff.workers)
    ensures AllExplained(s0, events + [Handled(id, transient)], max, s.staff.Finish(id, transient).workers)
  {
    hide PullState.Valid, RunTo, Staff.Valid;
    var e := Handled(id, transient);
    AllMore(s0, events, max, e, s.staff.workers, []);
    var w := s.staff.workers[id].(finished := true, errorIsTransient := transient);
    assert Explained(s0, events, max, id, s.staff.workers[id]);
    assert (events + [e])[|events|] == e && (events + [e])[..|events|] == events;
    if !w.revoked {
      CameMore(events, e, w.sequence, |events|);
      assert Came(events + [e], w.sequence, |events|);
    }
    assert ReportedAt(s0, events + [e], max, id, w, |events|);
    assert Explained(s0, events + [e], max, id, w);
    hide Explained, Reported, Came;
  }

  /** Every event keeps the workers explained. */
  lemma NextExplained(s0: PullState, events: seq<PullerEvent>, max: nat, s: PullState, e: PullerEvent)
    requires s0.Valid(max) && s == RunTo(s0, events, max)
    requires AllExplained(s0, events, max, s.staff.workers) && AllCame(events, s.waiting)
    ensures var s', es := s.Next(e, max), events + [e];
            AllExplained(s0, es, max, s'.staff.workers) && AllCame(es, s'.waiting)
  {
    hide Explained, Came, AllExplained, AllCame, Staff.Valid, CollectAll, RunTo;
    var es := events + [e];
    AllMore(s0, events, max, e, s.staff.workers, s.waiting);
    match e
    case GotRev(msg) => if |s.waiting| < s.pending { TakenExplained(s0, events, max, s, msg); }
    case Revoked(docs) =>
      var k := Min(|docs|, s.staff.revoked.Room(max));
      HiredExplained(s0, es, max, s.staff, true, Nulls(k));
    case Inserted(id) =>
      if s.CanInsert(id) { InsertedExplained(s0, es, max, s.staff, id); }
    case Handled(id, transient) =>
      if s.CanFinish(id) { FinishedExplained(s0, events, max, s, id, transient); }
    case DeliverProvisional =>
      s.staff.DeliverKeepsValid(max);
      RestartExplained(s0, es, max, s.(staff := s.staff.Deliver()));
    case DeliverFinished =>
      CollectedExplained(s0, es, max, s.staff);
      if s.staff.returning != [] {
        CollectedAreFree(s.staff, max);
        CollectAll(s.staff, max).0.RespareKeepsValid(max, s.staff.returning);
        RestartExplained(s0, es, max, s.(staff := CollectAll(s.staff, max).0.Respare(s.staff.returning, max)));
      }
    case _ =>
  }

  lemma InsertedExplained(s0: PullState, events: seq<PullerEvent>, max: nat, st: Staff, id: int)
    requires s0.Valid(max) && id in st.workers && AllExplained(s0, events, max, st.workers)
    ensures AllExplained(s0, events, max, st.Insert(id).workers)
  {
    hide PullState.Valid, RunTo, Came;
    var w := st.workers[id];
    assert Explained(s0, events, max, id, w);
    assert Explained(s0, events, max, id, w.(provisional := true)) by {
      if w.finished {
        var j :| 0 <= j < |events| && ReportedAt(s0, events, max, id, w, j);
        assert ReportedAt(s0, events, max, id, w.(provisional := true), j);
      }
    }
    hide Explained;
  }

  lemma TakenExplained(s0: PullState, events: seq<PullerEvent>, max: nat, s: PullState, msg: Message)
    requires s0.Valid(max) && s.Valid(max) && |s.waiting| < s.pending
    requires AllExplained(s0, events, max, s.staff.workers) && AllCame(events, s.waiting)
    ensures var s', es := s.TakeRev(msg, max), events + [GotRev(msg)];
            AllExplained(s0, es, max, s'.staff.workers) && AllCame(es, s'.waiting)
  {
    hide Staff.Valid, Staff.Hire, Staff.HireAll, Came, Explained, AllExplained;
    var es := events + [GotRev(msg)];
    AllMore(s0, events, max, GotRev(msg), s.staff.workers, s.waiting);
    JustCame(events, msg);
    s.staff.HireOne(msg.sequence);
    HiredExplained(s0, es, max, s.staff, false, [msg.sequence]);
  }

  lemma JustCame(events: seq<PullerEvent>, msg: Message)
    ensures Came(events + [GotRev(msg)], msg.sequence, |events| + 1)
  {
    assert (events + [GotRev(msg)])[|events|] == GotRev(msg);
  }

  lemma {:induction false} RunExplained(s: PullState, events: seq<PullerEvent>, max: nat)
    requires s.Valid(max) && s.waiting == [] && s.staff.workers == map[]
    ensures var s' := RunTo(s, events, max);
            AllExplained(s, events, max, s'.staff.workers) && AllCame(events, s'.waiting)
  {
    hide PullState.Next, PullState.Valid, Explained, Came;
    if events != [] {
      var k := |events| - 1;
      RunExplained(s, events[..k], max);
      NextExplained(s, events[..k], max, RunTo(s, events[..k], max), events[k]);
      assert events[..k] + [events[k]] == events;
    }
  }

  // ---- Safety of the checkpoint

  /** Event `k` of a run from `s` is the end of the work on `q`: nobody asked for it; the peer could not send
      it; or workers are collected, one of which was at work on `q` when it reported success. */
  ghost predicate EndsWork(s: PullState, events: seq<PullerEvent>, max: nat, k: nat, q: RemoteSequence)
    requires s.Valid(max) && k < |events|
  {
    match events[k]
    case Expected(changes) => Unasked(changes, q)
    case GotNoRev(t) => t == q
    case DeliverFinished => exists id, j :: 0 <= j < k && WorkedOff(s, events, max, id, j, q)
    case _ => false
  }

  /** Event `j` is worker `id` reporting success, when it was at work on `q`, whose "rev" message had come. A
      revocation has no sequence. */
  ghost predicate WorkedOff(s: PullState, events: seq<PullerEvent>, max: nat, id: int, j: nat, q: RemoteSequence)
    requires s.Valid(max) && j < |events|
  {
    && events[j] == Handled(id, false) && AtWork(RunTo(s, events[..j], max), id, q)
    && (q == NullSequence || Came(events, q, j))
  }

  lemma SettledEndsWork(s: PullState, events: seq<PullerEvent>, max: nat, k: nat, q: RemoteSequence)
    requires s.Valid(max) && s.waiting == [] && s.staff.workers == map[]
    requires k < |events| && RunTo(s, events[..k], max).Settles(events[k], q)
    ensures EndsWork(s, events, max, k, q)
  {
    RunExplained(s, events[..k], max);
    hide RunTo, PullState.Valid, Explained, WorkedOff;
    if events[k].DeliverFinished? {
      var st := RunTo(s, events[..k], max).staff;
      var id :| id in st.returning && id in st.workers && Succeeded(st.workers[id], q);
      var j := SucceededWorkedOff(s, events, max, k, id, st.workers[id], q);
    }
  }

  lemma SucceededWorkedOff(s: PullState, events: seq<PullerEvent>, max: nat, k: nat, id: int, w: Worker,
                           q: RemoteSequence)
    returns (j: nat)
    requires s.Valid(max) && k <= |events| && Explained(s, events[..k], max, id, w) && Succeeded(w, q)
    ensures j < k && WorkedOff(s, events, max, id, j, q)
  {
    hide RunTo, PullState.Valid;
    var es := events[..k];
    j :| 0 <= j < |es| && ReportedAt(s, es, max, id, w, j);
    if !w.revoked { CameInWhole(events, k, q, j); }
    assert es[..j] == events[..j] && es[j] == events[j];
  }

  lemma CameInWhole(events: seq<PullerEvent>, k: nat, q: RemoteSequence, j: int)
    requires k <= |events| && Came(events[..k], q, j)
    ensures Came(events, q, j)
  {
    var i :| 0 <= i < j && i < k && events[..k][i].GotRev? && events[..k][i].msg.sequence == q;
    assert events[i].GotRev? && events[i].msg.sequence == q;
  }

  /** In every run of an active Puller: each announcement in front of the published checkpoint was settled
      after it was made. `i` and `j` are where the log says so, `a` and `k` the events that did it. */
  lemma CheckpointSafe(s: PullState, since: RemoteSequence, events: seq<PullerEvent>, max: nat, p: nat)
    returns (i: nat, j: nat, a: nat, k: nat)
    requires s.Valid(max) && s.waiting == [] && s.staff.workers == map[]
    requires p < FirstOpen(Replay(PullLog.Start(since), Trace(s, events, false, max)).done)
    ensures var trace := Trace(s, events, false, max);
            var q := Replay(PullLog.Start(since), trace).names[p + 1];
            && i < j < |trace| && trace[i] == Announced(q) && trace[j] == Completed(q)
            && |Replay(PullLog.Start(since), trace[..i]).done| == p
            && a <= k < |events| && events[a].Expected? && Announces(events[a].changes, q)
            && RunTo(s, events[..k], max).Settles(events[k], q) && EndsWork(s, events, max, k, q)
  {
    var trace := Trace(s, events, false, max);
    var q := Replay(PullLog.Start(since), trace).names[p + 1];
    i := AnnouncementOf(since, trace, p);
    DoneMeansCompletedLater(since, trace, i);
    hide Trace, Replay, PullState.Valid, PullState.Logs, PullState.Settles, EndsWork;
    j :| i < j < |trace| && trace[j] == Completed(q);
    a := TraceOrigin(s, events, false, max, i);
    k := TraceOrigin(s, events, false, max, j);
    OriginsInOrder(s, events, false, max, i, j, a, k);
    LogsExactly(RunTo(s, events[..a], max), events[a], false, max, q);
    LogsExactly(RunTo(s, events[..k], max), events[k], false, max, q);
    SettledEndsWork(s, events, max, k, q);
  }

  /** Nothing is awaited, waiting or at work yet. */
  function Beginning(): PullState
  {
    PullState(true, 0, [], [], Staff(map[], Lane(0, 0, 0), Lane(0, 0, 0), [], [], 0))
  }

  /** Conversely, once an event has settled `q`, none of its announcements made before is open any more. */
  lemma SettledIsDone(s: PullState, since: RemoteSequence, events: seq<PullerEvent>, max: nat, k: nat, p: nat)
    requires s.Valid(max) && k < |events| && !events[k].Expected?
    requires p < |Replay(PullLog.Start(since), Trace(s, events[..k], false, max)).done|
    requires var q := Replay(PullLog.Start(since), Trace(s, events[..k], false, max)).names[p + 1];
             q.NonNull() && RunTo(s, events[..k], max).Settles(events[k], q)
    ensures p < |Replay(PullLog.Start(since), Trace(s, events, false, max)).done|
    ensures Replay(PullLog.Start(since), Trace(s, events, false, max)).done[p]
  {
    var trace, before := Trace(s, events, false, max), Trace(s, events[..k], false, max);
    var q := Replay(PullLog.Start(since), before).names[p + 1];
    LogsExactly(RunTo(s, events[..k], max), events[k], false, max, q);
    hide *;
    TracePrefix(s, events, false, max, k);
    var j := CompletedIn(s, events, max, k, q);
    SettledAfter(since, before, trace, p, j);
  }

  /** Where in the log of the run an event's completion stands. */
  lemma CompletedIn(s: PullState, events: seq<PullerEvent>, max: nat, k: nat, q: RemoteSequence) returns (j: nat)
    requires s.Valid(max) && k < |events| && Completed(q) in RunTo(s, events[..k], max).Logs(events[k], false, max)
    ensures |Trace(s, events[..k], false, max)| <= j < |Trace(s, events, false, max)|
    ensures Trace(s, events, false, max)[j] == Completed(q)
  {
    var before, logs := Trace(s, events[..k], false, max), RunTo(s, events[..k], max).Logs(events[k], false, max);
    TraceMore(s, events, max, k);
    hide *;
    TracePrefix(s, events, false, max, k + 1);
    j := FoundIn(before, logs, Trace(s, events, false, max), Completed(q));
  }

  lemma FoundIn<T>(a: seq<T>, b: seq<T>, c: seq<T>, x: T) returns (j: nat)
    requires a + b <= c && x in b
    ensures |a| <= j < |c| && c[j] == x
  {
    var i :| 0 <= i < |b| && b[i] == x;
    j := |a| + i;
    assert (a + b)[j] == x;
  }

  lemma TraceMore(s: PullState, events: seq<PullerEvent>, max: nat, k: nat)
    requires s.Valid(max) && k < |events|
    ensures Trace(s, events[..k + 1], false, max)
         == Trace(s, events[..k], false, max) + RunTo(s, events[..k], max).Logs(events[k], false, max)
  {
    hide PullState.Logs, PullState.Next, PullState.Valid;
    assert events[..k + 1][..k] == events[..k];
  }

  /** Each change of a list is entered in turn, and is open just if it was asked for, and so was every later one of the
      list with its sequence. */
  lemma {:induction false} ExpectedEntries(log: Log<RemoteSequence>, changes: seq<ChangeSequence>, m: nat)
    requires log.Valid() && m < |changes|
    ensures var r, n := Replay(log, ExpectEvents(changes)), |log.done|;
            && |r.done| == n + |changes| && r.names[n + m + 1] == changes[m].sequence
            && (r.done[n + m] <==> UnaskedFrom(changes, m))
  {
    var k := |changes| - 1;
    assert changes[..k + 1] == changes;
    ExpectOneMore(log, changes, k);
    ExpectedCount(log, changes[..k]);
    if m < k {
      ExpectedEntries(log, changes[..k], m);
      LaterUnasked(changes, m);
    } else {
      LastUnasked(changes);
    }
    hide ExpectEvents, Replay, UnaskedFrom, ChangeSequence.Requested;
    ExpectedLast(Replay(log, ExpectEvents(changes[..k])), changes[k], |log.done| + m);
  }

  /** What one more change does to an entry, an older one or its own. */
  lemma ExpectedLast(log: Log<RemoteSequence>, c: ChangeSequence, p: nat)
    requires log.Valid() && p <= |log.done|
    ensures var r := Expect(log, c);
            && |r.done| == |log.done| + 1
            && r.names[p + 1] == (if p < |log.done| then log.names[p + 1] else c.sequence)
            && r.done[p] == ((p < |log.done| && log.done[p]) || (r.names[p + 1] == c.sequence && !c.Requested()))
  {
  }

  /** A change from the `m`th on that has its sequence was not asked for. */
  ghost predicate UnaskedFrom(changes: seq<ChangeSequence>, m: nat)
    requires m < |changes|
  {
    exists i :: m <= i < |changes| && changes[i].sequence == changes[m].sequence && !changes[i].Requested()
  }

  lemma LaterUnasked(changes: seq<ChangeSequence>, m: nat)
    requires m < |changes| - 1
    ensures UnaskedFrom(changes, m)
       <==> || UnaskedFrom(changes[..|changes| - 1], m)
            || (changes[|changes| - 1].sequence == changes[m].sequence && !changes[|changes| - 1].Requested())
  {
    hide ChangeSequence.Requested;
    var k := |changes| - 1;
    assert forall i :: 0 <= i < k ==> changes[..k][i] == changes[i];
    if UnaskedFrom(changes, m) {
      var i :| m <= i < |changes| && changes[i].sequence == changes[m].sequence && !changes[i].Requested();
      if i < k { assert changes[..k][i] == changes[i]; }
    }
  }

  lemma LastUnasked(changes: seq<ChangeSequence>)
    requires changes != []
    ensures UnaskedFrom(changes, |changes| - 1) <==> !changes[|changes| - 1].Requested()
  {
  }

  lemma {:induction false} ExpectedCount(log: Log<RemoteSequence>, changes: seq<ChangeSequence>)
    requires log.Valid()
    ensures |Replay(log, ExpectEvents(changes)).done| == |log.done| + |changes|
  {
    if changes != [] {
      var k := |changes| - 1;
      assert changes[..k + 1] == changes;
      ExpectOneMore(log, changes, k);
      ExpectedCount(log, changes[..k]);
    }
  }

  class Puller {
    const passive: bool
    const maxIncomingRevs: nat
    const missing: RemoteSequenceSet<RemoteSequence>
    var connected: bool
    var lastSequence: RemoteSequence  // the published checkpoint
    var pendingRevMessages: int
    var waitingRevs: seq<Message>
    var waitingRevoked: seq<nat>
    var staff: Staff

    ghost var arrived: seq<Message>  // "rev" messages in order of arrival
    ghost var started: seq<Message>  // "rev" messages in the order they were taken up

    ghost function State(): PullState
      reads this
    {
      PullState(connected, pendingRevMessages, waitingRevs, waitingRevoked, staff)
    }

    /** The published checkpoint is the log's. */
    ghost predicate Published()
      reads this, missing
    {
      missing.Valid() && (!passive ==> lastSequence == Checkpoint(missing.log))
    }

    /** "rev" messages are taken up in order of arrival and none is lost. */
    ghost predicate InOrder()
      reads this
    {
      |waitingRevs| <= pendingRevMessages && (connected ==> arrived == started + waitingRevs)
    }

    /** Nothing waits while there is room for it. */
    ghost predicate Settled()
      reads this
    {
      && (connected && waitingRevs != [] ==> !staff.revs.HasRoom(maxIncomingRevs))
      && (waitingRevoked != [] ==> !staff.revoked.HasRoom(maxIncomingRevs))
    }

    ghost predicate Valid()
      reads this, missing
    {
      Published() && staff.Valid(maxIncomingRevs) && InOrder() && Settled()
    }

    constructor (passive: bool, maxIncomingRevs: nat)
      ensures Valid() && this.passive == passive && this.maxIncomingRevs == maxIncomingRevs
      ensures State() == Beginning() && missing.log == PullLog.Start(NullSequence) && fresh(missing)
      ensures arrived == [] && started == []
    {
      this.passive, this.maxIncomingRevs := passive, maxIncomingRevs;
      missing := new RemoteSequenceSet(NullSequence);
      connected, lastSequence, pendingRevMessages := true, NullSequence, 0;
      waitingRevs, waitingRevoked := [], [];
      staff := Staff(map[], Lane(0, 0, 0), Lane(0, 0, 0), [], [], 0);
      arrived, started := [], [];
    }

    /** Begins an active pull after the given checkpoint. */
    method Start(since: RemoteSequence)
      requires Valid()
      modifies this`lastSequence, missing
      ensures Valid() && missing.log == PullLog.Start(since) && lastSequence == since
    {
      hide Staff.Valid;
      lastSequence := since;
      missing.Clear(since);
    }

    method UpdateLastSequence()
      requires missing.Valid()
      modifies this`lastSequence
      ensures lastSequence == Checkpoint(missing.log)
    {
      var since := missing.Since();
      if since != lastSequence { lastSequence := since; }
    }

    method CompletedSequence(s: RemoteSequence, withTransientError: bool, shouldUpdate: bool)
      requires missing.Valid()
      modifies this`lastSequence, missing
      ensures missing.Valid()
      ensures missing.log == if withTransientError then old(missing.log) else Complete(old(missing.log), s)
      ensures !shouldUpdate ==> lastSequence == old(lastSequence)
      ensures shouldUpdate && old(Published()) ==> Published()
    {
      if !withTransientError {
        CompleteAdvances(missing.log, s);
        var wasEarliest, _ := missing.Remove(s);
        if wasEarliest && shouldUpdate { UpdateLastSequence(); }
      }
    }

    /** The RevFinder says which sequences the peer announced and which revisions it asked for. */
    method ExpectSequences(changes: seq<ChangeSequence>)
      requires Valid()
      modifies this`lastSequence, this`pendingRevMessages, missing
      ensures Valid()
      ensures missing.log == if passive then old(missing.log) else Replay(old(missing.log), ExpectEvents(changes))
      ensures pendingRevMessages == old(pendingRevMessages) + RequestedCount(changes)
    {
      hide Staff.Valid;
      for i := 0 to |changes|
        invariant Published()
        invariant missing.log
               == if passive then old(missing.log) else Replay(old(missing.log), ExpectEvents(changes[..i]))
        invariant pendingRevMessages == old(pendingRevMessages) + RequestedCount(changes[..i])
      {
        assert changes[..i + 1][..i] == changes[..i];
        if !passive { ExpectOneMore(old(missing.log), changes, i); }
        ExpectSequence(changes[i]);
      }
      assert changes[..|changes|] == changes;
    }

    method ExpectSequence(c: ChangeSequence)
      requires Published()
      modifies this`lastSequence, this`pendingRevMessages, missing
      ensures Published()
      ensures missing.log == if passive then old(missing.log) else Expect(old(missing.log), c)
      ensures pendingRevMessages == old(pendingRevMessages) + if c.Requested() then 1 else 0
    {
      if !passive {
        missing.Add(c.sequence, c.bodySize);
        if !c.Requested() { CompletedSequence(c.sequence, false, true); }
      }
      if c.Requested() { pendingRevMessages := pendingRevMessages + 1; }
    }

    /** makeIncomingRev: nothing is started once the connection is closed. */
    method MakeIncomingRev(isRevoked: bool, sequence: RemoteSequence)
      requires staff.Valid(maxIncomingRevs) && staff.LaneOf(isRevoked).HasRoom(maxIncomingRevs)
      modifies this`staff
      ensures staff.Valid(maxIncomingRevs)
      ensures staff == if connected then old(staff).Hire(isRevoked, sequence) else old(staff)
    {
      if connected {
        staff.HireKeepsValid(maxIncomingRevs, isRevoked, sequence);
        staff := staff.Hire(isRevoked, sequence);
      }
    }

    method StartIncomingRev(msg: Message)
      requires staff.Valid(maxIncomingRevs) && staff.revs.HasRoom(maxIncomingRevs)
      modifies this`pendingRevMessages, this`started, this`staff
      ensures staff.Valid(maxIncomingRevs)
      ensures pendingRevMessages == old(pendingRevMessages) - 1 && started == old(started) + [msg]
      ensures staff == if connected then old(staff).Hire(false, msg.sequence) else old(staff)
    {
      pendingRevMessages := pendingRevMessages - 1;
      started := started + [msg];
      MakeIncomingRev(false, msg.sequence);
    }

    /** A "rev" message arrives, in answer to a request not answered yet. */
    method HandleRev(msg: Message)
      requires Valid() && |waitingRevs| < pendingRevMessages
      modifies this`pendingRevMessages, this`waitingRevs, this`arrived, this`started, this`staff
      ensures Valid() && arrived == old(arrived) + [msg] && State() == old(State()).TakeRev(msg, maxIncomingRevs)
      ensures if old(staff.revs.HasRoom(maxIncomingRevs)) then
                && waitingRevs == old(waitingRevs) && started == old(started) + [msg]
                && pendingRevMessages == old(pendingRevMessages) - 1
                && staff == if connected then old(staff).Hire(false, msg.sequence) else old(staff)
              else
                && waitingRevs == old(waitingRevs) + [msg] && started == old(started)
                && pendingRevMessages == old(pendingRevMessages) && staff == old(staff)
    {
      hide Staff.Valid;
      arrived := arrived + [msg];
      if staff.revs.HasRoom(maxIncomingRevs) {
        StartIncomingRev(msg);
      } else {
        waitingRevs := waitingRevs + [msg];
      }
    }

    /** The peer could not send a revision it was asked for. */
    method HandleNoRev(sequence: RemoteSequence)
      requires Valid() && |waitingRevs| < pendingRevMessages
      modifies this`pendingRevMessages, this`lastSequence, missing
      ensures Valid() && pendingRevMessages == old(pendingRevMessages) - 1
      ensures missing.log == if sequence.NonNull() then Complete(old(missing.log), sequence) else old(missing.log)
    {
      hide Staff.Valid;
      pendingRevMessages := pendingRevMessages - 1;
      if sequence.NonNull() { CompletedSequence(sequence, false, true); }
    }

    /** A delta could not be applied: the whole revision will be sent. */
    method RevReRequested()
      requires Valid()
      modifies this`pendingRevMessages
      ensures Valid() && pendingRevMessages == old(pendingRevMessages) + 1
    {
      pendingRevMessages := pendingRevMessages + 1;
    }

    method ConnectionClosed()
      requires Valid()
      modifies this`connected
      ensures Valid() && !connected
    {
      connected := false;
    }

    /** Documents the user lost access to are to be purged. */
    method DocumentsRevoked(docs: seq<nat>)
      requires Valid()
      modifies this`waitingRevoked, this`staff
      ensures Valid() && State() == old(State()).Revoke(docs, maxIncomingRevs)
    {
      hide Staff.Valid, Tracks, IsEarliest, Staff.Hire;
      ghost var room := staff.revoked.Room(maxIncomingRevs);
      for i := 0 to |docs|
        invariant staff.Valid(maxIncomingRevs) && Settled()
        invariant connected ==> staff == old(staff).HireAll(true, Nulls(Min(i, room)))
        invariant connected ==> staff.revs == old(staff).revs && staff.revoked == old(staff).revoked.Grown(Min(i, room))
        invariant connected ==> waitingRevoked == old(waitingRevoked) + docs[Min(i, room)..i]
        invariant !connected ==> staff == old(staff)
        invariant !connected ==>
                    waitingRevoked == old(waitingRevoked)
                                    + if staff.revoked.HasRoom(maxIncomingRevs) then [] else docs[..i]
      {
        if staff.revoked.HasRoom(maxIncomingRevs) {
          NullsMore(i);
          MakeIncomingRev(true, NullSequence);
        } else {
          waitingRevoked := waitingRevoked + [docs[i]];
        }
      }
    }

    /** Takes up waiting "rev" messages, oldest first, as far as the limits allow. */
    method StartWaitingRevs()
      requires staff.Valid(maxIncomingRevs) && InOrder()
      modifies this`pendingRevMessages, this`waitingRevs, this`started, this`staff
      ensures staff.Valid(maxIncomingRevs) && InOrder()
      ensures connected && waitingRevs != [] ==> !staff.revs.HasRoom(maxIncomingRevs)
      ensures var k := if connected then Min(old(|waitingRevs|), old(staff.revs.Room(maxIncomingRevs))) else 0;
              && waitingRevs == old(waitingRevs)[k..] && started == old(started) + old(waitingRevs)[..k]
              && pendingRevMessages == old(pendingRevMessages) - k
              && staff == old(staff).HireAll(false, Sequences(old(waitingRevs)[..k]))
              && staff.revoked == old(staff).revoked
    {
      hide Staff.Valid, TakenUp;
      ghost var k := 0;
      NoneTakenUp();
      while connected && staff.revs.HasRoom(maxIncomingRevs) && waitingRevs != []
        invariant staff.Valid(maxIncomingRevs) && k <= |old(waitingRevs)| && (k > 0 ==> connected)
        invariant TakenUp(old(waitingRevs), old(started), old(pendingRevMessages), old(staff), k)
        invariant |waitingRevs| == |old(waitingRevs)| - k
        invariant staff.revs == old(staff).revs.Grown(k) && k <= old(staff.revs.Room(maxIncomingRevs))
        decreases |waitingRevs|
      {
        StartOldest(old(waitingRevs), old(started), old(pendingRevMessages), old(staff), k);
        k := k + 1;
      }
      AllTakenUp(old(waitingRevs), old(started), old(pendingRevMessages), old(staff), k);
    }

    /** The first `k` of the messages that waited have been taken up. */
    ghost predicate TakenUp(was: seq<Message>, begun: seq<Message>, awaited: int, crew: Staff, k: nat)
      requires k <= |was|
      reads this`pendingRevMessages, this`waitingRevs, this`started, this`staff
    {
      && waitingRevs == was[k..] && started == begun + was[..k] && pendingRevMessages == awaited - k
      && staff == crew.HireAll(false, Sequences(was[..k])) && staff.revoked == crew.revoked
    }

    lemma NoneTakenUp()
      ensures TakenUp(waitingRevs, started, pendingRevMessages, staff, 0)
    {
    }

    lemma AllTakenUp(was: seq<Message>, begun: seq<Message>, awaited: int, crew: Staff, k: nat)
      requires k <= |was| && TakenUp(was, begun, awaited, crew, k)
      ensures waitingRevs == was[k..] && started + waitingRevs == begun + was && pendingRevMessages == awaited - k
      ensures started == begun + was[..k]
      ensures staff == crew.HireAll(false, Sequences(was[..k])) && staff.revoked == crew.revoked
    {
      hide Staff.HireAll, Sequences;
      assert was == was[..k] + was[k..];
    }

    method StartOldest(ghost was: seq<Message>, ghost begun: seq<Message>, ghost awaited: int, ghost crew: Staff,
                       ghost k: nat)
      requires staff.Valid(maxIncomingRevs) && connected && staff.revs.HasRoom(maxIncomingRevs) && waitingRevs != []
      requires k < |was| && TakenUp(was, begun, awaited, crew, k)
      modifies this`pendingRevMessages, this`waitingRevs, this`started, this`staff
      ensures staff.Valid(maxIncomingRevs) && TakenUp(was, begun, awaited, crew, k + 1)
      ensures |waitingRevs| == old(|waitingRevs|) - 1 && staff.revs == old(staff.revs).Grown(1)
    {
      hide Staff.Valid, Staff.Hire, Staff.HireAll, Sequences;
      var msg := waitingRevs[0];
      HiredMore(crew, was, k);
      assert was[..k + 1] == was[..k] + [msg];
      waitingRevs := waitingRevs[1..];
      StartIncomingRev(msg);
    }

    /** Takes up waiting revocations likewise; after a disconnect they are dropped. */
    method StartWaitingRevoked()
      requires staff.Valid(maxIncomingRevs)
      modifies this`waitingRevoked, this`staff
      ensures staff.Valid(maxIncomingRevs) && staff.revs == old(staff).revs
      ensures waitingRevoked != [] ==> !staff.revoked.HasRoom(maxIncomingRevs)
      ensures var k := Min(old(|waitingRevoked|), old(staff.revoked.Room(maxIncomingRevs)));
              connected ==> waitingRevoked == old(waitingRevoked)[k..] && staff == old(staff).HireAll(true, Nulls(k))
      ensures !connected ==>
                && staff == old(staff)
                && waitingRevoked == if staff.revoked.HasRoom(maxIncomingRevs) then [] else old(waitingRevoked)
    {
      hide Staff.Valid;
      ghost var k := 0;
      while waitingRevoked != [] && staff.revoked.HasRoom(maxIncomingRevs)
        invariant staff.Valid(maxIncomingRevs)
        invariant k <= |old(waitingRevoked)| && waitingRevoked == old(waitingRevoked)[k..]
        invariant staff == if connected then old(staff).HireAll(true, Nulls(k)) else old(staff)
        invariant staff.revoked == old(staff).revoked.Grown(if connected then k else 0) && staff.revs == old(staff).revs
        invariant if connected then k <= old(staff.revoked.Room(maxIncomingRevs))
                  else k > 0 ==> staff.revoked.HasRoom(maxIncomingRevs)
        decreases |waitingRevoked|
      {
        waitingRevoked := waitingRevoked[1..];
        NullsMore(k);
        MakeIncomingRev(true, NullSequence);
        k := k + 1;
      }
    }

    method MaybeStartIncomingRevs()
      requires staff.Valid(maxIncomingRevs) && InOrder()
      modifies this`pendingRevMessages, this`waitingRevs, this`waitingRevoked, this`started, this`staff
      ensures staff.Valid(maxIncomingRevs) && InOrder() && Settled()
      ensures started + waitingRevs == old(started + waitingRevs)
      ensures State() == old(State()).Restart(maxIncomingRevs)
    {
      hide Staff.Valid;
      StartWaitingRevs();
      assert started + waitingRevs == old(started + waitingRevs);
      StartWaitingRevoked();
    }

    /** The Inserter has written a worker's revision to the database; the count is delivered later. */
    method ProvisionallyInserted(id: int)
      requires Valid() && id in staff.workers && !staff.workers[id].provisional && !staff.workers[id].finished
      modifies this`staff
      ensures Valid() && staff == old(staff).Insert(id)
    {
      staff.InsertKeepsValid(maxIncomingRevs, id);
      staff := staff.Insert(id);
    }

    /** A worker is done, with or without success. */
    method RevWasHandled(id: int, errorIsTransient: bool)
      requires Valid() && id in staff.workers && !staff.workers[id].finished
      modifies this`staff
      ensures Valid() && staff == old(staff).Finish(id, errorIsTransient)
    {
      staff.FinishKeepsValid(maxIncomingRevs, id, errorIsTransient);
      staff := staff.Finish(id, errorIsTransient);
    }

    /** The counts of provisionally inserted revisions are delivered. */
    method RevsWereProvisionallyHandled()
      requires Valid()
      modifies this`pendingRevMessages, this`waitingRevs, this`waitingRevoked, this`started, this`staff
      ensures Valid()
      ensures started + waitingRevs == old(started + waitingRevs)
      ensures State() == old(State()).Deliver(maxIncomingRevs)
      ensures forall r :: staff.LaneOf(r).Exact(staff.workers, r)
      ensures connected && waitingRevs != [] ==> FullyAtWork(staff.workers, false, maxIncomingRevs)
      ensures waitingRevoked != [] ==> FullyAtWork(staff.workers, true, maxIncomingRevs)
    {
      staff.DeliverKeepsValid(maxIncomingRevs);
      assert forall r :: staff.Deliver().LaneOf(r).provisional == 0;
      hide Staff.Valid;
      staff := staff.Deliver();
      RestartCounts(State(), maxIncomingRevs);
      MaybeStartIncomingRevs();
      ExactWhenDelivered(staff, maxIncomingRevs);
    }

    /** The workers that are done are collected: their sequences are completed, unless the failure
        is transient, and their objects become spare. */
    method RevsFinished()
      requires Valid()
      modifies this`pendingRevMessages, this`waitingRevs, this`waitingRevoked, this`started, this`staff,
               this`lastSequence, missing
      ensures Valid()
      ensures State() == old(State()).Collect(maxIncomingRevs)
      ensures missing.log == if passive then old(missing.log)
                             else Replay(old(missing.log), CollectAll(old(staff), maxIncomingRevs).1)
      ensures started + waitingRevs == old(started + waitingRevs)
    {
      hide Staff.Valid, Staff.Respare, Tracks, IsEarliest, CollectAll, Replay;
      var done := staff.returning;
      if done != [] {
        CollectedAreFree(staff, maxIncomingRevs);
        CollectFinished();
        staff.RespareKeepsValid(maxIncomingRevs, done);
        staff := staff.Respare(done, maxIncomingRevs);
        if !passive { UpdateLastSequence(); }
        MaybeStartIncomingRevs();
      } else {
        ReplayNone(staff, maxIncomingRevs, missing.log);
      }
    }

    /** The loop over the workers that are done. */
    method CollectFinished()
      requires missing.Valid() && staff.Valid(maxIncomingRevs)
      modifies this`staff, this`lastSequence, missing
      ensures missing.Valid() && staff.Valid(maxIncomingRevs)
      ensures var (st, events) := CollectAll(old(staff), maxIncomingRevs);
              && staff == st
              && missing.log == if passive then old(missing.log) else Replay(old(missing.log), events)
    {
      ghost var events: seq<Event<RemoteSequence>> := [];
      assert Replay(missing.log, events) == missing.log;
      assert events + CollectAll(staff, maxIncomingRevs).1 == CollectAll(staff, maxIncomingRevs).1;
      hide Staff.Valid, Tracks, IsEarliest, Replay, Complete, CollectAll, FinishEvent, Staff.CollectOne;
      while staff.returning != []
        invariant missing.Valid() && staff.Valid(maxIncomingRevs)
        invariant missing.log == if passive then old(missing.log) else Replay(old(missing.log), events)
        invariant CollectAll(old(staff), maxIncomingRevs)
               == (CollectAll(staff, maxIncomingRevs).0, events + CollectAll(staff, maxIncomingRevs).1)
        decreases |staff.returning|
      {
        ghost var st := staff;
        var w := CollectFirst();
        CollectFirstOf(st, maxIncomingRevs, events);
        ReplayFinish(old(missing.log), events, w);
        events := events + FinishEvent(w);
      }
      CollectNone(staff, maxIncomingRevs, events);
    }

    method CollectFirst() returns (w: Worker)
      requires missing.Valid() && staff.Valid(maxIncomingRevs) && staff.returning != []
      modifies this`staff, this`lastSequence, missing
      ensures missing.Valid() && staff.Valid(maxIncomingRevs)
      ensures var id := old(staff).returning[0];
              id in old(staff).workers && w == old(staff).workers[id] && staff == old(staff).CollectOne()
      ensures missing.log == if passive || w.errorIsTransient then old(missing.log)
                             else Complete(old(missing.log), w.sequence)
    {
      staff.CollectOneKeepsValid(maxIncomingRevs);
      hide Staff.Valid, Tracks, IsEarliest;
      w := staff.workers[staff.returning[0]];
      if !passive { CompletedSequence(w.sequence, w.errorIsTransient, false); }
      staff := staff.CollectOne();
    }

    /** One event, if it can happen now. */
    method Step(e: PullerEvent)
      requires Valid()
      modifies this, missing
      ensures Valid() && State() == old(State()).Next(e, maxIncomingRevs)
      ensures missing.log == Replay(old(missing.log), old(State()).Logs(e, passive, maxIncomingRevs))
      ensures arrived == old(arrived) + old(State()).Brings(e)
    {
      hide Staff.Valid, Tracks, IsEarliest, PullState.TakeRev, PullState.Revoke, PullState.Collect, PullState.Deliver;
      match e
      case Expected(changes) => ExpectSequences(changes);
      case GotRev(msg) => if |waitingRevs| < pendingRevMessages { HandleRev(msg); }
      case GotNoRev(s) => if |waitingRevs| < pendingRevMessages { HandleNoRev(s); }
      case Revoked(docs) => DocumentsRevoked(docs);
      case Inserted(id) =>
        if id in staff.workers && !staff.workers[id].provisional && !staff.workers[id].finished {
          ProvisionallyInserted(id);
        }
      case Handled(id, transient) =>
        if id in staff.workers && !staff.workers[id].finished { RevWasHandled(id, transient); }
      case DeliverProvisional => RevsWereProvisionallyHandled();
      case DeliverFinished => RevsFinished();
      case ReRequested => RevReRequested();
      case Closed => ConnectionClosed();
    }

    /** Any run: the published checkpoint is the one of the log that the events make, its position has not
        moved back, and while connected the messages the events brought are taken up in that order. */
    method Run(events: seq<PullerEvent>)
      requires Valid()
      modifies this, missing
      ensures Valid() && State() == RunTo(old(State()), events, maxIncomingRevs)
      ensures missing.log == Replay(old(missing.log), Trace(old(State()), events, passive, maxIncomingRevs))
      ensures !passive ==> lastSequence == Checkpoint(missing.log)
      ensures FirstOpen(missing.log.done) >= old(FirstOpen(missing.log.done))
      ensures arrived == old(arrived) + Arrivals(old(State()), events, maxIncomingRevs)
      ensures connected ==> started + waitingRevs == arrived
    {
      hide Staff.Valid, Tracks, IsEarliest, PullState.Next, PullState.Logs, Replay;
      ghost var s := State();
      ReplayEmpty(missing.log);
      for i := 0 to |events|
        invariant Valid() && State() == RunTo(s, events[..i], maxIncomingRevs)
        invariant missing.log == Replay(old(missing.log), Trace(s, events[..i], passive, maxIncomingRevs))
        invariant arrived == old(arrived) + Arrivals(s, events[..i], maxIncomingRevs)
      {
        assert events[..i + 1][..i] == events[..i];
        ReplayConcat(old(missing.log), Trace(s, events[..i], passive, maxIncomingRevs),
                     State().Logs(events[i], passive, maxIncomingRevs));
        Step(events[i]);
      }
      assert events[..|events|] == events;
      CheckpointIsMonotone(old(missing.log), Trace(s, events, passive, maxIncomingRevs));
    }
  }

  lemma ReplayEmpty(log: Log<RemoteSequence>)
    requires log.Valid()
    ensures Replay(log, []) == log
  {
  }

  /** The position of the checkpoint, and for every announcement in front of it an event that announced it
      and a later or the same one that ended the work on it. */
  ghost predicate Safe(s: PullState, events: seq<PullerEvent>, max: nat, log: Log<RemoteSequence>,
                       published: RemoteSequence)
    requires s.Valid(max) && log.Valid()
  {
    && published == log.names[FirstOpen(log.done)]
    && forall p :: 0 < p <= FirstOpen(log.done) ==> WellFounded(s, events, max, log.names[p])
  }

  ghost predicate WellFounded(s: PullState, events: seq<PullerEvent>, max: nat, q: RemoteSequence)
    requires s.Valid(max)
  {
    exists a, k :: 0 <= a <= k < |events| && FromTo(s, events, max, q, a, k)
  }

  ghost predicate FromTo(s: PullState, events: seq<PullerEvent>, max: nat, q: RemoteSequence, a: nat, k: nat)
    requires s.Valid(max) && a <= k < |events|
  {
    && events[a].Expected? && Announces(events[a].changes, q)
    && RunTo(s, events[..k], max).Settles(events[k], q) && EndsWork(s, events, max, k, q)
  }

  /** An active pull from `since`, through any events: its log is the one the events make, and what it
      publishes is safe. */
  method Pull(since: RemoteSequence, events: seq<PullerEvent>, maxIncomingRevs: nat) returns (puller: Puller)
    ensures puller.Valid() && Beginning().Valid(maxIncomingRevs)
    ensures puller.State() == RunTo(Beginning(), events, maxIncomingRevs)
    ensures puller.missing.log == Replay(PullLog.Start(since), Trace(Beginning(), events, false, maxIncomingRevs))
    ensures Safe(Beginning(), events, maxIncomingRevs, puller.missing.log, puller.lastSequence)
    ensures puller.arrived == Arrivals(Beginning(), events, maxIncomingRevs)
    ensures puller.connected ==> puller.started + puller.waitingRevs == puller.arrived
  {
    hide Staff.Valid, Tracks, IsEarliest, Replay, Trace;
    puller := new Puller(false, maxIncomingRevs);
    puller.Start(since);
    ghost var s := puller.State();
    puller.Run(events);
    ghost var log := puller.missing.log;
    forall p | 0 < p <= FirstOpen(log.done) ensures WellFounded(s, events, maxIncomingRevs, log.names[p]) {
      var i, j, a, k := CheckpointSafe(s, since, events, maxIncomingRevs, p - 1);
      assert FromTo(s, events, maxIncomingRevs, log.names[p], a, k);
    }
  }
}
