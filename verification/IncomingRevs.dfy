/** The IncomingRev objects of a Puller and the counters that throttle them (Replicator/Puller.cc). */
module IncomingRevs {
  import opened Common
  import opened RemoteSequences

  const MAX_ACTIVE_INCOMING_REVS: nat := 100  // tuning::kMaxActiveIncomingRevs

  /** One IncomingRev at work. `provisional`: written to the database but not committed yet.
      `finished`: has called revWasHandled. */
  datatype Worker = Worker(revoked: bool, sequence: RemoteSequence, provisional: bool, finished: bool,
                           errorIsTransient: bool)

  type Workers = map<int, Worker>

  function All(ws: Workers, revoked: bool): set<int>
  {
    set i | i in ws && ws[i].revoked == revoked
  }

  function Busy(ws: Workers, revoked: bool): set<int>
  {
    set i | i in ws && ws[i].revoked == revoked && !ws[i].provisional
  }

  /** The counters for one kind of work, revisions or revocations. `provisional` is the
      CountBatcher's count that the Puller has not taken yet. */
  datatype Lane = Lane(active: int, unfinished: int, provisional: int) {

    predicate HasRoom(max: nat) { active < MAX_ACTIVE_INCOMING_REVS && unfinished < max }

    /** How many more workers the limits allow. */
    function Room(max: nat): nat
    {
      if HasRoom(max) then Min(MAX_ACTIVE_INCOMING_REVS - active, max - unfinished) else 0
    }

    function Grown(n: int): Lane { Lane(active + n, unfinished + n, provisional) }

    /** Just what is at work is counted. */
    ghost predicate Exact(ws: Workers, revoked: bool)
    {
      provisional == 0 && active == |Busy(ws, revoked)| && unfinished == |All(ws, revoked)|
    }

    /** The counters say what they are for, and stay within the limits; so none is negative. */
    ghost predicate Counts(ws: Workers, revoked: bool, max: nat)
    {
      match this
      case Lane(active, unfinished, provisional) =>
        && unfinished == |All(ws, revoked)| <= max
        && active == |Busy(ws, revoked)| + provisional <= MAX_ACTIVE_INCOMING_REVS
        && provisional >= 0
    }
  }

  ghost predicate Distinct(s: seq<int>)
  {
    forall i, j :: 0 <= i < j < |s| ==> s[i] != s[j]
  }

  /** No IncomingRev object is both at work and spare, or spare twice; those that have finished are
      exactly the ones waiting to be collected. */
  ghost predicate Pooled(ws: Workers, spare: seq<int>, returning: seq<int>, nextId: int)
  {
    && (forall i :: i in ws ==> i < nextId)
    && (forall k :: 0 <= k < |spare| ==> spare[k] < nextId && spare[k] !in ws)
    && Distinct(spare)
    && (forall k :: 0 <= k < |returning| ==> returning[k] in ws && ws[returning[k]].finished)
    && (forall i :: i in ws && ws[i].finished ==> i in returning)
    && Distinct(returning)
  }

  /** The objects at work, the spare ones, those waiting to be collected, and the counters. */
  datatype Staff = Staff(workers: Workers, revs: Lane, revoked: Lane, spare: seq<int>, returning: seq<int>,
                         nextId: int) {

    ghost predicate Valid(max: nat)
    {
      match this
      case Staff(workers, revs, revoked, spare, returning, nextId) =>
        && revs.Counts(workers, false, max)
        && revoked.Counts(workers, true, max)
        && Pooled(workers, spare, returning, nextId)
        && |spare| <= max
    }

    function LaneOf(isRevoked: bool): Lane { if isRevoked then revoked else revs }

    function WithLane(isRevoked: bool, lane: Lane): Staff
    {
      if isRevoked then this.(revoked := lane) else this.(revs := lane)
    }

    /** makeIncomingRev: the last spare object, or else a new one, goes to work. */
    function Hire(isRevoked: bool, sequence: RemoteSequence): (st: Staff)
      ensures st.LaneOf(isRevoked) == LaneOf(isRevoked).Grown(1) && st.LaneOf(!isRevoked) == LaneOf(!isRevoked)
    {
      var id := if spare == [] then nextId else spare[|spare| - 1];
      WithLane(isRevoked, LaneOf(isRevoked).Grown(1))
      .(workers := workers[id := Worker(isRevoked, sequence, false, false, false)],
        spare := if spare == [] then [] else spare[..|spare| - 1],
        nextId := if spare == [] then nextId + 1 else nextId)
    }

    function HireAll(isRevoked: bool, sequences: seq<RemoteSequence>): Staff
    {
      if sequences == [] then this
      else HireAll(isRevoked, sequences[..|sequences| - 1]).Hire(isRevoked, sequences[|sequences| - 1])
    }

    /** revisionProvisionallyInserted */
    function Insert(id: int): Staff
      requires id in workers
    {
      var w := workers[id];
      var lane := LaneOf(w.revoked);
      WithLane(w.revoked, lane.(provisional := lane.provisional + 1))
      .(workers := workers[id := w.(provisional := true)])
    }

    /** revWasHandled */
    function Finish(id: int, transient: bool): Staff
      requires id in workers
    {
      this.(workers := workers[id := workers[id].(finished := true, errorIsTransient := transient)],
            returning := returning + [id])
    }

    /** Takes both counts of provisionally inserted revisions. */
    function Deliver(): Staff
    {
      this.(revs := Lane(revs.active - revs.provisional, revs.unfinished, 0),
            revoked := Lane(revoked.active - revoked.provisional, revoked.unfinished, 0))
    }

    /** One object that has finished is collected. */
    function CollectOne(): Staff
      requires returning != [] && returning[0] in workers
    {
      var w := workers[returning[0]];
      var lane := LaneOf(w.revoked);
      WithLane(w.revoked,
               Lane(lane.active - (if w.provisional then 0 else 1), lane.unfinished - 1, lane.provisional))
      .(workers := workers - {returning[0]}, returning := returning[1..])
    }

    /** As many of the collected objects as there is capacity for become spare. */
    function Respare(done: seq<int>, max: nat): Staff
    {
      var capacity := max - |spare|;
      if capacity > 0 then this.(spare := spare + done[..Min(capacity, |done|)]) else this
    }

    lemma HireKeepsValid(max: nat, isRevoked: bool, sequence: RemoteSequence)
      requires Valid(max) && LaneOf(isRevoked).HasRoom(max)
      ensures Hire(isRevoked, sequence).Valid(max)
      ensures Hire(isRevoked, sequence).LaneOf(isRevoked) == LaneOf(isRevoked).Grown(1)
      ensures Hire(isRevoked, sequence).LaneOf(!isRevoked) == LaneOf(!isRevoked)
      ensures exists id :: id !in workers
                && Hire(isRevoked, sequence).workers == workers[id := Worker(isRevoked, sequence, false, false, false)]
    {
      var id := if spare == [] then nextId else spare[|spare| - 1];
      var w := Worker(isRevoked, sequence, false, false, false);
      WorkerStarted(workers, id, w);
      PooledStarted(workers, spare, returning, nextId, w);
    }

    /** As many as there is room for. */
    lemma {:induction false} HireAllKeepsValid(max: nat, isRevoked: bool, sequences: seq<RemoteSequence>)
      requires Valid(max) && |sequences| <= LaneOf(isRevoked).Room(max)
      ensures var st := HireAll(isRevoked, sequences);
              && st.Valid(max) && st.LaneOf(isRevoked) == LaneOf(isRevoked).Grown(|sequences|)
              && st.LaneOf(!isRevoked) == LaneOf(!isRevoked)
    {
      hide Staff.Valid, Staff.Hire;
      if sequences != [] {
        var k := |sequences| - 1;
        HireAllKeepsValid(max, isRevoked, sequences[..k]);
        HireAll(isRevoked, sequences[..k]).HireKeepsValid(max, isRevoked, sequences[k]);
      }
    }

    lemma HireOne(sequence: RemoteSequence)
      ensures HireAll(false, [sequence]) == Hire(false, sequence)
    {
      assert [sequence][..0] == [] && HireAll(false, []) == this;
    }

    /** The workers afterwards are those before and new ones with these sequences. */
    lemma {:induction false} HiredWorkers(isRevoked: bool, sequences: seq<RemoteSequence>)
      ensures var st := HireAll(isRevoked, sequences);
              forall id :: id in st.workers ==>
                || (id in workers && st.workers[id] == workers[id])
                || exists q :: q in sequences && st.workers[id] == Worker(isRevoked, q, false, false, false)
    {
      if sequences != [] {
        var k := |sequences| - 1;
        HiredWorkers(isRevoked, sequences[..k]);
        assert sequences[k] in sequences && forall q :: q in sequences[..k] ==> q in sequences;
      }
    }

    lemma InsertKeepsValid(max: nat, id: int)
      requires Valid(max) && id in workers && !workers[id].provisional && !workers[id].finished
      ensures Insert(id).Valid(max)
      ensures forall r :: Insert(id).LaneOf(r).active == LaneOf(r).active
      ensures forall r :: Insert(id).LaneOf(r).unfinished == LaneOf(r).unfinished
      ensures forall r :: Insert(id).LaneOf(r).provisional
                       == LaneOf(r).provisional + if r == workers[id].revoked then 1 else 0
      ensures forall r :: Busy(Insert(id).workers, r) == Busy(workers, r) - {id}
      ensures OnlyWorker(Insert(id), id) && Insert(id).returning == returning
      ensures Insert(id).workers[id] == workers[id].(provisional := true)
    {
      WorkerInserted(workers, id);
      PooledInserted(workers, spare, returning, nextId, id);
    }

    lemma FinishKeepsValid(max: nat, id: int, transient: bool)
      requires Valid(max) && id in workers && !workers[id].finished
      ensures Finish(id, transient).Valid(max)
      ensures OnlyWorker(Finish(id, transient), id) && Finish(id, transient).returning == returning + [id]
      ensures Finish(id, transient).workers[id] == workers[id].(finished := true, errorIsTransient := transient)
    {
      WorkerFinished(workers, id, transient);
      PooledFinished(workers, spare, returning, nextId, id, transient);
    }

    /** The counters are then just what is at work, and nothing else changes. */
    lemma DeliverKeepsValid(max: nat)
      requires Valid(max)
      ensures Deliver().Valid(max) && Delivered(Deliver())
    {
    }

    ghost predicate Delivered(st: Staff)
    {
      && st.workers == workers && st.spare == spare && st.returning == returning && st.nextId == nextId
      && forall r :: st.LaneOf(r).Exact(workers, r)
    }

    /** Only worker `id` is another one. */
    ghost predicate OnlyWorker(st: Staff, id: int)
    {
      st.workers.Keys == workers.Keys && forall i :: i in workers && i != id ==> st.workers[i] == workers[i]
    }

    /** Once every worker is collected and the counts are delivered, there is room for as many as the limits
        allow. */
    lemma RoomAgain(max: nat, isRevoked: bool)
      requires Valid(max) && workers == map[]
      ensures Deliver().LaneOf(isRevoked) == Lane(0, 0, 0)
      ensures Deliver().LaneOf(isRevoked).Room(max) == Min(MAX_ACTIVE_INCOMING_REVS, max)
    {
      DeliverKeepsValid(max);
      assert All(workers, isRevoked) == {} && Busy(workers, isRevoked) == {};
    }

    lemma CollectOneKeepsValid(max: nat)
      requires Valid(max) && returning != []
      ensures returning[0] in workers
      ensures CollectOne().Valid(max) && CollectOne().workers == workers - {returning[0]}
      ensures CollectOne().returning == returning[1..] && CollectOne().spare == spare
    {
      WorkerEnded(workers, returning[0]);
      PooledCollected(workers, spare, returning, nextId);
    }

    /** Objects that are neither at work nor spare may become spare. */
    lemma RespareKeepsValid(max: nat, done: seq<int>)
      requires Valid(max) && Distinct(done)
      requires forall k :: 0 <= k < |done| ==> done[k] < nextId && done[k] !in workers && done[k] !in spare
      ensures Respare(done, max).Valid(max)
      ensures var st := Respare(done, max);
              && spare <= st.spare && st.spare[|spare|..] <= done
              && (|st.spare| == max || st.spare == spare + done)
              && st == this.(spare := st.spare)
    {
      var capacity := max - |spare|;
      if capacity > 0 { PooledSpared(workers, spare, returning, nextId, done, Min(capacity, |done|)); }
    }
  }

  /** One more member. */
  lemma Grown(s: set<int>, t: set<int>, i: int)
    requires i !in s && forall j: int :: j in t <==> j in s || j == i
    ensures |t| == |s| + 1
  {
    forall j: int ensures j in t <==> j in s + {i} {}
    assert t == s + {i};
  }

  lemma WorkerStarted(ws: Workers, id: int, w: Worker)
    requires id !in ws && !w.provisional
    ensures var ws', r := ws[id := w], w.revoked;
            && |All(ws', r)| == |All(ws, r)| + 1
            && |Busy(ws', r)| == |Busy(ws, r)| + 1
            && All(ws', !r) == All(ws, !r)
            && Busy(ws', !r) == Busy(ws, !r)
  {
    Grown(All(ws, w.revoked), All(ws[id := w], w.revoked), id);
    Grown(Busy(ws, w.revoked), Busy(ws[id := w], w.revoked), id);
  }

  lemma WorkerInserted(ws: Workers, id: int)
    requires id in ws && !ws[id].provisional
    ensures var ws', r := ws[id := ws[id].(provisional := true)], ws[id].revoked;
            && All(ws', r) == All(ws, r)
            && All(ws', !r) == All(ws, !r)
            && |Busy(ws', r)| + 1 == |Busy(ws, r)|
            && Busy(ws', !r) == Busy(ws, !r)
  {
    Grown(Busy(ws[id := ws[id].(provisional := true)], ws[id].revoked), Busy(ws, ws[id].revoked), id);
  }

  lemma WorkerFinished(ws: Workers, id: int, transient: bool)
    requires id in ws
    ensures var ws' := ws[id := ws[id].(finished := true, errorIsTransient := transient)];
            forall r :: All(ws', r) == All(ws, r) && Busy(ws', r) == Busy(ws, r)
  {
  }

  lemma WorkerEnded(ws: Workers, id: int)
    requires id in ws
    ensures var ws', r := ws - {id}, ws[id].revoked;
            && |All(ws', r)| + 1 == |All(ws, r)|
            && |Busy(ws', r)| + (if ws[id].provisional then 0 else 1) == |Busy(ws, r)|
            && All(ws', !r) == All(ws, !r)
            && Busy(ws', !r) == Busy(ws, !r)
  {
    var ws', r := ws - {id}, ws[id].revoked;
    Grown(All(ws', r), All(ws, r), id);
    if ws[id].provisional {
      assert Busy(ws', r) == Busy(ws, r);
    } else {
      Grown(Busy(ws', r), Busy(ws, r), id);
    }
  }

  lemma PooledStarted(ws: Workers, spare: seq<int>, returning: seq<int>, nextId: int, w: Worker)
    requires Pooled(ws, spare, returning, nextId) && !w.finished
    ensures spare == [] ==> nextId !in ws && Pooled(ws[nextId := w], spare, returning, nextId + 1)
    ensures spare != [] ==>
              var id := spare[|spare| - 1];
              id !in ws && Pooled(ws[id := w], spare[..|spare| - 1], returning, nextId)
  {
    var id := if spare == [] then nextId else spare[|spare| - 1];
    assert forall k :: 0 <= k < |returning| ==> returning[k] != id;
  }

  lemma PooledInserted(ws: Workers, spare: seq<int>, returning: seq<int>, nextId: int, id: int)
    requires Pooled(ws, spare, returning, nextId) && id in ws
    ensures Pooled(ws[id := ws[id].(provisional := true)], spare, returning, nextId)
  {
  }

  lemma PooledFinished(ws: Workers, spare: seq<int>, returning: seq<int>, nextId: int, id: int, transient: bool)
    requires Pooled(ws, spare, returning, nextId) && id in ws && !ws[id].finished
    ensures Pooled(ws[id := ws[id].(finished := true, errorIsTransient := transient)], spare, returning + [id], nextId)
  {
  }

  lemma PooledCollected(ws: Workers, spare: seq<int>, returning: seq<int>, nextId: int)
    requires Pooled(ws, spare, returning, nextId) && returning != []
    ensures Pooled(ws - {returning[0]}, spare, returning[1..], nextId)
  {
    var ws', rest := ws - {returning[0]}, returning[1..];
    forall i | i in ws' && ws'[i].finished ensures i in rest {
      assert i in returning;
    }
  }

  lemma PooledSpared(ws: Workers, spare: seq<int>, returning: seq<int>, nextId: int, done: seq<int>, n: nat)
    requires Pooled(ws, spare, returning, nextId) && n <= |done|
    requires Distinct(done)
    requires forall k :: 0 <= k < |done| ==> done[k] < nextId && done[k] !in ws && done[k] !in spare
    ensures Pooled(ws, spare + done[..n], returning, nextId)
  {
    var spare' := spare + done[..n];
    forall i, j | 0 <= i < j < |spare'| ensures spare'[i] != spare'[j] {
      if i < |spare| && |spare| <= j { assert done[j - |spare|] !in spare; }
    }
  }
}
