/** What the puller's bookkeeping has to compute, told over the log of announced sequences. */
module PullLog {

  /** `names[0]` is where the pull started; `names[i + 1]` is the i-th sequence the peer announced,
      and `done[i]` says whether it has been completed since. */
  datatype Log<S> = Log(names: seq<S>, done: seq<bool>) {
    predicate Valid() { |names| == |done| + 1 }
  }

  function Start<S>(since: S): (log: Log<S>)
    ensures log.Valid()
  {
    Log([since], [])
  }

  /** The peer announces `s`. */
  function Announce<S>(log: Log<S>, s: S): (r: Log<S>)
    ensures log.Valid() ==> r.Valid()
  {
    Log(log.names + [s], log.done + [false])
  }

  /** `s` needs no more work: that settles every announcement of it made so far. */
  function Complete<S(==)>(log: Log<S>, s: S): (r: Log<S>)
    requires log.Valid()
    ensures r.Valid()
  {
    Log(log.names, seq(|log.done|, i requires 0 <= i < |log.done| => log.done[i] || log.names[i + 1] == s))
  }

  /** The number of announcements before the oldest one still open. */
  function FirstOpen(done: seq<bool>): (k: nat)
    ensures k <= |done|
    ensures forall i :: 0 <= i < k ==> done[i]
    ensures k < |done| ==> !done[k]
  {
    if done == [] || !done[0] then 0
    else
      var k := FirstOpen(done[1..]);
      assert forall i :: 1 <= i <= k ==> done[i] == done[1..][i - 1];
      1 + k
  }

  /** The checkpoint: what was announced just before the oldest announcement still open. */
  function Checkpoint<S>(log: Log<S>): S
    requires log.Valid()
  {
    log.names[FirstOpen(log.done)]
  }

  /** The checkpoint's position is the last one with nothing open before it. */
  lemma {:induction false} CheckpointIsExact(done: seq<bool>, k: nat)
    requires k <= |done|
    ensures (forall i :: 0 <= i < k ==> done[i]) <==> k <= FirstOpen(done)
  {
  }

  /** An announcement never moves the checkpoint. */
  lemma {:induction false} AnnounceKeepsCheckpoint<S>(log: Log<S>, s: S)
    requires log.Valid()
    ensures FirstOpen(Announce(log, s).done) == FirstOpen(log.done)
    ensures Checkpoint(Announce(log, s)) == Checkpoint(log)
  {
    var k, done' := FirstOpen(log.done), Announce(log, s).done;
    assert forall i :: 0 <= i < k ==> done'[i] == log.done[i];
    assert !done'[k];
    CheckpointIsExact(done', k);
    CheckpointIsExact(done', k + 1);
  }

  /** A completion never moves the checkpoint back. It moves it forward exactly when it completes
      the oldest open announcement. */
  lemma {:induction false} CompleteAdvances<S>(log: Log<S>, s: S)
    requires log.Valid()
    ensures var k, k' := FirstOpen(log.done), FirstOpen(Complete(log, s).done);
            && k <= k'
            && (k < k' <==> k < |log.done| && log.names[k + 1] == s)
  {
    var k, done' := FirstOpen(log.done), Complete(log, s).done;
    CheckpointIsExact(done', k);
    if k < |log.done| {
      CheckpointIsExact(done', k + 1);
      assert done'[k] <==> log.names[k + 1] == s;
    }
  }

  datatype Event<S> = Announced(s: S) | Completed(s: S)

  /** The log after a run of events. */
  function Replay<S(==)>(log: Log<S>, events: seq<Event<S>>): (r: Log<S>)
    requires log.Valid()
    ensures r.Valid()
    decreases |events|
  {
    if events == [] then log
    else
      var e := events[|events| - 1];
      var before := Replay(log, events[..|events| - 1]);
      if e.Announced? then Announce(before, e.s) else Complete(before, e.s)
  }

  lemma ReplayOneMore<S>(log: Log<S>, events: seq<Event<S>>, e: Event<S>)
    requires log.Valid()
    ensures Replay(log, events + [e])
         == if e.Announced? then Announce(Replay(log, events), e.s) else Complete(Replay(log, events), e.s)
  {
    assert (events + [e])[..|events|] == events;
  }

  lemma {:induction false} ReplayConcat<S>(log: Log<S>, a: seq<Event<S>>, b: seq<Event<S>>)
    requires log.Valid()
    ensures Replay(log, a + b) == Replay(Replay(log, a), b)
    decreases |b|
  {
    if b == [] {
      assert a + b == a;
    } else {
      ReplayConcat(log, a, b[..|b| - 1]);
      assert (a + b)[..|a + b| - 1] == a + b[..|b| - 1];
    }
  }

  /** Over any run, the checkpoint's position never moves back and the log keeps what it had. */
  lemma {:induction false} CheckpointIsMonotone<S>(log: Log<S>, events: seq<Event<S>>)
    requires log.Valid()
    ensures FirstOpen(log.done) <= FirstOpen(Replay(log, events).done)
    ensures log.names <= Replay(log, events).names
    decreases |events|
  {
    if events != [] {
      var e := events[|events| - 1];
      var before := Replay(log, events[..|events| - 1]);
      CheckpointIsMonotone(log, events[..|events| - 1]);
      AnnounceKeepsCheckpoint(before, e.s);
      CompleteAdvances(before, e.s);
    }
  }

  /** Over any run, an announcement is settled exactly when a completion of its sequence came
      after it. */
  lemma {:induction false} DoneMeansCompletedLater<S>(since: S, events: seq<Event<S>>, i: nat)
    requires i < |events| && events[i].Announced?
    ensures var k := |Replay(Start(since), events[..i]).done|;
            var log := Replay(Start(since), events);
            && k < |log.done|
            && log.names[k + 1] == events[i].s
            && (log.done[k] <==> exists j :: i < j < |events| && events[j] == Completed(events[i].s))
    decreases |events|
  {
    var front := events[..|events| - 1];
    if i < |front| {
      DoneMeansCompletedLater(since, front, i);
      assert front[..i] == events[..i];
      assert forall j :: i < j < |front| ==> front[j] == events[j];
    }
  }

  /** So a completion settles all the entries of that name that were there before it. */
  lemma SettledAfter<S>(since: S, before: seq<Event<S>>, events: seq<Event<S>>, p: nat, j: nat)
    requires before <= events && p < |Replay(Start(since), before).done| && |before| <= j < |events|
    requires events[j] == Completed(Replay(Start(since), before).names[p + 1])
    ensures p < |Replay(Start(since), events).done| && Replay(Start(since), events).done[p]
  {
    var i := AnnouncementOf(since, before, p);
    hide *;
    PrefixOf(before, events, i);
    DoneMeansCompletedLater(since, events, i);
    assert i < j;
  }

  lemma PrefixOf<S>(before: seq<Event<S>>, events: seq<Event<S>>, i: nat)
    requires before <= events && i < |before|
    ensures events[..i] == before[..i] && events[i] == before[i]
  {
  }

  /** Every entry of the log was announced by some event. */
  lemma {:induction false} AnnouncementOf<S>(since: S, events: seq<Event<S>>, p: nat) returns (i: nat)
    requires p < |Replay(Start(since), events).done|
    ensures i < |events| && events[i] == Announced(Replay(Start(since), events).names[p + 1])
    ensures |Replay(Start(since), events[..i]).done| == p
    decreases |events|
  {
    var k := |events| - 1;
    if p < |Replay(Start(since), events[..k]).done| {
      i := AnnouncementOf(since, events[..k], p);
      assert events[..k][..i] == events[..i];
    } else {
      i := k;
    }
  }
}

/** Replicator/RemoteSequenceSet.hh */
module RemoteSequenceSets {
  import opened Common
  import opened PullLog

  datatype Value<S> = Value(order: nat, prevSequence: S, bodySize: nat)

  /** A set of opaque remote sequence IDs. */
  class RemoteSequenceSet<S(==, !new)> {
    var sequences: map<S, Value<S>>
    var nextOrder: nat
    var lastAdded: S
    var first: Option<S>  // the key `_first` points to, None for `end()`

    ghost var log: Log<S>  // every announcement since the last Clear

    ghost predicate Valid()
      reads this
    {
      && log.Valid()
      && Tracks(log, sequences)
      && IsEarliest(sequences, first)
      && nextOrder == |log.done|
      && lastAdded == log.names[nextOrder]
    }

    /** A set that starts after `start`, with nothing announced. */
    constructor (start: S)
      ensures Valid() && log == Start(start) && sequences == map[]
    {
      sequences, nextOrder, lastAdded, first := map[], 0, start, None;
      log := Start(start);
    }

    method Clear(since: S)
      modifies this
      ensures Valid() && log == Start(since) && sequences == map[]
    {
      sequences, nextOrder, lastAdded, first := map[], 0, since, None;
      log := Start(since);
    }

    /** The sequence before the earliest one still in the set is the log's checkpoint. */
    method Since() returns (s: S)
      requires Valid()
      ensures s == Checkpoint(log)
    {
      EarliestIsFirstOpen(log, sequences, first);
      s := if first.Some? then sequences[first.value].prevSequence else lastAdded;
    }

    /** The order and `lastAdded` advance even when the sequence is already in the set. */
    method Add(s: S, bodySize: nat)
      requires Valid()
      modifies this
      ensures Valid() && log == Announce(old(log), s)
      ensures Checkpoint(log) == old(Checkpoint(log))
      ensures sequences == if s in old(sequences) then old(sequences)
                           else old(sequences)[s := Value(old(nextOrder), old(lastAdded), bodySize)]
    {
      AnnounceKeepsCheckpoint(log, s);
      TracksAdded(log, sequences, s, Value(nextOrder, lastAdded, bodySize));
      EarliestAdded(sequences, first, s, Value(nextOrder, lastAdded, bodySize));
      var wasEmpty := sequences == map[];
      if s !in sequences { sequences := sequences[s := Value(nextOrder, lastAdded, bodySize)]; }
      nextOrder := nextOrder + 1;
      lastAdded := s;
      log := Announce(log, s);
      if wasEmpty { first := Some(s); }
    }

    method Remove(s: S) returns (wasEarliest: bool, bodySize: nat)
      requires Valid()
      modifies this
      ensures Valid() && log == Complete(old(log), s)
      ensures sequences == old(sequences) - {s}
      ensures wasEarliest <==> FirstOpen(log.done) > old(FirstOpen(log.done))
      ensures bodySize == old(BodySizeOfSequence(s))
    {
      EarliestIsFirstOpen(log, sequences, first);
      CompleteAdvances(log, s);
      TracksRemoved(log, sequences, s);
      log := Complete(log, s);
      if s !in sequences {
        assert sequences - {s} == sequences;
        wasEarliest, bodySize := false, 0;
      } else {
        bodySize := sequences[s].bodySize;
        wasEarliest := first == Some(s);
        var order := sequences[s].order;
        sequences := sequences - {s};
        if wasEarliest { FindFirst(order + 1); }
      }
    }

    function BodySizeOfSequence(s: S): (size: nat)
      reads this
    {
      if s in sequences then sequences[s].bodySize else 0
    }

    /** Linear scan, in whatever order the map has its keys, that stops as soon as it meets the
        least order the caller knows to be possible. */
    method FindFirst(minOrderInSet: nat)
      requires forall s :: s in sequences ==> minOrderInSet <= sequences[s].order
      modifies this`first
      ensures IsEarliest(sequences, first)
    {
      var found: Option<S> := None;
      var rest := sequences.Keys;
      while rest != {}
        invariant rest <= sequences.Keys
        invariant found.None? ==> rest == sequences.Keys
        invariant found.Some? ==> found.value in sequences
        invariant found.Some? ==> forall t :: t in sequences && t !in rest ==>
                                    sequences[found.value].order <= sequences[t].order
      {
        var i :| i in rest;
        rest := rest - {i};
        if found.None? || sequences[i].order < sequences[found.value].order {
          found := Some(i);
          if sequences[i].order == minOrderInSet { break; }
        }
      }
      first := found;
    }
  }

  /** `k` is the key with the least order, or None when there are no keys. */
  ghost predicate IsEarliest<S>(m: map<S, Value<S>>, k: Option<S>)
  {
    match k
    case None => m.Keys == {}
    case Some(s) => s in m && forall t :: t in m ==> m[s].order <= m[t].order
  }

  /** The element `s` stands at an open announcement of it and remembers the one before. */
  ghost predicate Stands<S>(log: Log<S>, s: S, v: Value<S>)
    requires log.Valid()
  {
    && v.order < |log.done| && !log.done[v.order]
    && log.names[v.order + 1] == s && log.names[v.order] == v.prevSequence
  }

  /** The elements stand in the log, and every open announcement is of an element whose order is no
      later. */
  ghost predicate Tracks<S(!new)>(log: Log<S>, m: map<S, Value<S>>)
    requires log.Valid()
  {
    && (forall s :: s in m ==> Stands(log, s, m[s]))
    && (forall i, s :: 0 <= i < |log.done| && !log.done[i] && log.names[i + 1] == s ==> s in m && m[s].order <= i)
  }

  lemma EarliestIsFirstOpen<S(!new)>(log: Log<S>, m: map<S, Value<S>>, first: Option<S>)
    requires log.Valid() && Tracks(log, m) && IsEarliest(m, first)
    ensures first.None? ==> FirstOpen(log.done) == |log.done|
    ensures first.Some? ==> m[first.value].order == FirstOpen(log.done)
    ensures first.Some? ==> m[first.value].prevSequence == Checkpoint(log)
  {
    var k := FirstOpen(log.done);
    if k < |log.done| { assert log.names[k + 1] in m; }
  }

  lemma TracksAdded<S(!new)>(log: Log<S>, m: map<S, Value<S>>, s: S, v: Value<S>)
    requires log.Valid() && Tracks(log, m)
    requires v.order == |log.done| && v.prevSequence == log.names[|log.done|]
    ensures s in m ==> Tracks(Announce(log, s), m)
    ensures s !in m ==> Tracks(Announce(log, s), m[s := v])
  {
  }

  lemma EarliestAdded<S>(m: map<S, Value<S>>, first: Option<S>, s: S, v: Value<S>)
    requires IsEarliest(m, first) && forall t :: t in m ==> m[t].order < v.order
    ensures s !in m ==> IsEarliest(m[s := v], if m == map[] then Some(s) else first)
    ensures s in m ==> m != map[]
  {
  }

  lemma TracksRemoved<S(!new)>(log: Log<S>, m: map<S, Value<S>>, s: S)
    requires log.Valid() && Tracks(log, m)
    ensures Tracks(Complete(log, s), m - {s})
  {
  }
}
