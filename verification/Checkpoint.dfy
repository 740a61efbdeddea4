/** The push side of a checkpoint told over the events that make it, with no mention of ranges. */
module PushLedger {
  import opened SequenceSets

  /** `Checked`: the feed looked at all sequences from `first` to `last` and found `revs` to push.
      `Done`: a sequence was pushed, or need not be. `Pending`: a sequence is to be pushed again. */
  datatype LedgerEvent = Checked(first: int, last: int, revs: seq<int>) | Done(s: int) | Pending(s: int) {
    /** Database sequences are positive, and a checked range is not reversed. */
    ghost predicate Sane()
    {
      if Checked? then 0 < first <= last + 1 && forall i :: 0 <= i < |revs| ==> 0 < revs[i] else 0 < s
    }

    /** Whether `t` is settled after this event, given whether it was before. */
    ghost predicate Settles(t: int, before: bool)
    {
      if Checked? then t !in revs && (first <= t <= last || before)
      else if Done? then t == s || before
      else t != s && before
    }
  }

  /** Whether sequence `t` needs no more work: the last event that mentions it decides. */
  ghost predicate Settled(events: seq<LedgerEvent>, t: int)
  {
    if events == [] then t == 0
    else events[|events| - 1].Settles(t, Settled(events[..|events| - 1], t))
  }

  /** What the code does to its ranges on each event. */
  function Apply(rs: Ranges, e: LedgerEvent): Ranges
  {
    match e
    case Checked(first, last, revs) => RemoveAll(AddRange(rs, first, last + 1), revs)
    case Done(s) => Add(rs, s)
    case Pending(s) => Remove(rs, s)
  }

  function RemoveAll(rs: Ranges, revs: seq<int>): Ranges
  {
    if revs == [] then rs else Remove(RemoveAll(rs, revs[..|revs| - 1]), revs[|revs| - 1])
  }

  function Run(rs: Ranges, events: seq<LedgerEvent>): Ranges
  {
    if events == [] then rs else Apply(Run(rs, events[..|events| - 1]), events[|events| - 1])
  }

  /** `localMinSequence` */
  function LocalMin(rs: Ranges): int
    requires rs != []
  {
    rs[0].end - 1
  }

  lemma {:induction false} RemoveAllCorrect(rs: Ranges, revs: seq<int>)
    requires Canonical(rs)
    ensures Canonical(RemoveAll(rs, revs))
    ensures forall t :: Has(RemoveAll(rs, revs), t) <==> Has(rs, t) && t !in revs
  {
    if revs != [] {
      var front, last := revs[..|revs| - 1], revs[|revs| - 1];
      RemoveAllCorrect(rs, front);
      RemoveCorrect(RemoveAll(rs, front), last);
      assert revs == front + [last];
    }
  }

  lemma ApplyCorrect(rs: Ranges, e: LedgerEvent)
    requires Canonical(rs) && e.Sane()
    ensures Canonical(Apply(rs, e))
    ensures forall t :: Has(Apply(rs, e), t) <==> e.Settles(t, Has(rs, t))
  {
    hide AddRange, AddAt, Remove;
    match e
    case Checked(first, last, revs) =>
      AddRangeCorrect(rs, first, last + 1);
      RemoveAllCorrect(AddRange(rs, first, last + 1), revs);
    case Done(s) => AddAtCorrect(rs, s);
    case Pending(s) => RemoveCorrect(rs, s);
  }

  /** Over any run the ranges stand for exactly the settled sequences. */
  lemma {:induction false} RunIsSettled(events: seq<LedgerEvent>)
    requires forall i :: 0 <= i < |events| ==> events[i].Sane()
    ensures Canonical(Run([Range(0, 1)], events))
    ensures forall t :: Has(Run([Range(0, 1)], events), t) <==> Settled(events, t)
  {
    hide Apply, Has, Canonical;
    if events == [] {
      Initial();
    } else {
      var front, e := events[..|events| - 1], events[|events| - 1];
      RunIsSettled(front);
      ApplyCorrect(Run([Range(0, 1)], front), e);
    }
  }

  lemma Initial()
    ensures Canonical([Range(0, 1)])
    ensures forall t :: Has([Range(0, 1)], t) <==> t == 0
  {
    forall t ensures Has([Range(0, 1)], t) <==> t == 0 { HasOne(Range(0, 1), t); }
  }

  /** Sequence 0 stays settled, and the local minimum is the largest number with nothing unsettled
      at or below it. */
  lemma LocalMinIsExact(rs: Ranges)
    requires Canonical(rs) && Has(rs, 0)
    ensures rs != [] && rs[0].first == 0
    ensures forall t :: 0 <= t <= LocalMin(rs) ==> Has(rs, t)
    ensures !Has(rs, LocalMin(rs) + 1) && LocalMin(rs) >= 0
  {
    HasTail(rs, 0);
    forall t | 0 <= t <= LocalMin(rs) ensures Has(rs, t) { HasAt(rs, 0, t); }
    FirstGap(rs);
  }

  /** Over any run, no unsettled sequence is at or below the local minimum, and no larger number
      has that property. */
  lemma LedgerIsExact(events: seq<LedgerEvent>, m: int)
    requires forall i :: 0 <= i < |events| ==> events[i].Sane()
    ensures Run([Range(0, 1)], events) != []
    ensures m <= LocalMin(Run([Range(0, 1)], events)) <==> forall t :: 0 <= t <= m ==> Settled(events, t)
  {
    hide Has, Canonical, Run, Settled;
    var rs := Run([Range(0, 1)], events);
    RunIsSettled(events);
    ZeroIsSettled(events);
    LocalMinIsExact(rs);
    if m > LocalMin(rs) { assert !Settled(events, LocalMin(rs) + 1); }
  }

  lemma {:induction false} ZeroIsSettled(events: seq<LedgerEvent>)
    requires forall i :: 0 <= i < |events| ==> events[i].Sane()
    ensures Settled(events, 0)
  {
    if events != [] { ZeroIsSettled(events[..|events| - 1]); }
  }
}

/** Replicator/Checkpoint.cc and Checkpoint.hh */
module Checkpoints {
  import opened Common
  import opened SequenceSets
  import opened PushLedger
  import opened ParsedSequenceIDs
  import opened RemoteSequences

  /** The JSON document a checkpoint is saved as; the remote sequence is written as it is. */
  datatype CheckpointDict = CheckpointDict(local: Option<int>, localCompleted: Option<seq<int>>,
                                           remote: Option<string>) {
    /** What parsing it gives; `json` says which texts are JSON values. */
    function Parsed(json: string -> bool): Option<CheckpointDict>
    {
      if remote.Some? && !json(remote.value) then None else Some(this)
    }
  }

  /** The sequences up to `hi` that are not completed. */
  ghost function PendingUpTo(rs: Ranges, hi: int): set<int>
  {
    set t | 0 <= t <= hi && !Has(rs, t)
  }

  /** The remote sequence that survives a comparison with the peer's. */
  function KeptRemote(mine: RemoteSequence, theirs: RemoteSequence): RemoteSequence
  {
    if mine.NonNull() && mine != theirs then
      var m, t := mine.ToParsedSequenceID(), theirs.ToParsedSequenceID();
      if m.Some? && t.Some? then
        if t.value.Before(m.value) then theirs else mine
      else NullSequence
    else mine
  }

  /** `a` is known to be at or before `b`. */
  ghost predicate NotAfter(a: RemoteSequence, b: RemoteSequence)
  {
    a == b
    || (a.ToParsedSequenceID().Some? && b.ToParsedSequenceID().Some?
        && !b.ToParsedSequenceID().value.Before(a.ToParsedSequenceID().value))
  }

  /** Both can be told apart by the order of their IDs. */
  predicate Comparable(mine: RemoteSequence, theirs: RemoteSequence)
  {
    mine.ToParsedSequenceID().Some? && theirs.ToParsedSequenceID().Some?
  }

  /** Theirs comes first in that order: its key is less. */
  predicate Earlier(theirs: RemoteSequence, mine: RemoteSequence)
    requires Comparable(mine, theirs)
  {
    LexLess(theirs.ToParsedSequenceID().value.Key(), mine.ToParsedSequenceID().value.Key())
  }

  /** What is to become of a remote sequence, told by the keys: it is cleared exactly if it differs from the
      peer's and they cannot be compared; otherwise it gives way to the peer's exactly if that is earlier. */
  predicate Reconciles(mine: RemoteSequence, theirs: RemoteSequence, kept: RemoteSequence)
  {
    && (kept == NullSequence <==> mine == NullSequence || (mine != theirs && !Comparable(mine, theirs)))
    && (kept != NullSequence ==>
          kept == if mine != theirs && Comparable(mine, theirs) && Earlier(theirs, mine) then theirs else mine)
  }

  lemma KeptRemoteExactly(mine: RemoteSequence, theirs: RemoteSequence)
    ensures Reconciles(mine, theirs, KeptRemote(mine, theirs))
  {
    var m, t := mine.ToParsedSequenceID(), theirs.ToParsedSequenceID();
    if m.Some? && t.Some? { BeforeIsLexicographic(t.value, m.value); }
  }

  /** What survives is cleared, or one of the two and after neither. */
  lemma KeptRemoteIsEarlier(mine: RemoteSequence, theirs: RemoteSequence)
    ensures var kept := KeptRemote(mine, theirs);
            kept.NonNull() ==> (kept == mine || kept == theirs) && NotAfter(kept, mine) && NotAfter(kept, theirs)
    ensures KeptRemote(KeptRemote(mine, theirs), theirs) == KeptRemote(mine, theirs)
  {
    var m, t := mine.ToParsedSequenceID(), theirs.ToParsedSequenceID();
    if m.Some? && t.Some? { BeforeIsStrictTotalOrder(m.value, t.value, m.value); }
  }

  lemma IntersectionMin(a: Ranges, b: Ranges, c: Ranges)
    requires Canonical(a) && Canonical(b) && Canonical(c) && Has(a, 0) && Has(b, 0)
    requires forall t :: Has(c, t) <==> Has(a, t) && Has(b, t)
    ensures a != [] && b != [] && c != [] && LocalMin(c) == Min(LocalMin(a), LocalMin(b))
  {
    LocalMinIsExact(a);
    LocalMinIsExact(b);
    LocalMinIsExact(c);
    hide Has, Canonical;
    assert !Has(c, Min(LocalMin(a), LocalMin(b)) + 1);
    assert Has(c, Min(LocalMin(a), LocalMin(b)));
    assert !Has(c, LocalMin(c) + 1);
  }

  /** What both sides have completed is what stays completed when compared once more. */
  lemma SharedTwice(mine: Ranges, theirs: Ranges)
    requires Canonical(mine) && Canonical(theirs)
    ensures Shared(Shared(mine, theirs), theirs) == Shared(mine, theirs)
  {
    SharedCorrect(mine, theirs);
    SharedCorrect(Shared(mine, theirs), theirs);
    hide Has, Canonical, Shared;
    CanonicalUnique(Shared(Shared(mine, theirs), theirs), Shared(mine, theirs));
  }

  lemma SharedSame(rs: Ranges)
    requires Canonical(rs)
    ensures Shared(rs, rs) == rs
  {
    SharedCorrect(rs, rs);
    hide Has, Canonical, Shared;
    CanonicalUnique(Shared(rs, rs), rs);
  }

  /** The sequences from `a` up to `b`. */
  ghost function Interval(a: int, b: int): (r: set<int>)
    ensures forall t :: t in r <==> a <= t < b
    ensures |r| == if a <= b then b - a else 0
    decreases b - a
  {
    if a >= b then {} else Interval(a, b - 1) + {b - 1}
  }

  /** A gap, and after it sequences that are all completed. */
  lemma PendingExtends(rs: Ranges, a: int, b: int, c: int)
    requires 0 <= a <= b <= c
    requires (forall t :: a <= t < b ==> !Has(rs, t)) && (forall t :: b <= t < c ==> Has(rs, t))
    ensures |PendingUpTo(rs, c - 1)| == |PendingUpTo(rs, a - 1)| + b - a
  {
    hide Has;
    var gap := Interval(a, b);
    assert PendingUpTo(rs, c - 1) == PendingUpTo(rs, a - 1) + gap;
    assert PendingUpTo(rs, a - 1) !! gap;
  }

  lemma NoneBelowZero(rs: Ranges)
    ensures PendingUpTo(rs, -1) == {}
  {
  }

  lemma GapCount(rs: Ranges, i: nat, end: int)
    requires Canonical(rs) && i < |rs| && end == if i == 0 then 0 else rs[i - 1].end
    ensures |PendingUpTo(rs, rs[i].end - 1)| == |PendingUpTo(rs, end - 1)| + rs[i].first - end
  {
    forall t | rs[i].first <= t < rs[i].end ensures Has(rs, t) { HasAt(rs, i, t); }
    PendingExtends(rs, end, rs[i].first, rs[i].end);
  }

  lemma TailCount(rs: Ranges, hi: int)
    requires Canonical(rs) && rs != [] && hi >= rs[|rs| - 1].end
    ensures |PendingUpTo(rs, hi)| == |PendingUpTo(rs, rs[|rs| - 1].end - 1)| + hi - (rs[|rs| - 1].end - 1)
  {
    PendingExtends(rs, rs[|rs| - 1].end, hi + 1, hi + 1);
  }

  /** What is saved. The ranges are written out only when there is more than one. */
  function Save(rs: Ranges, remote: RemoteSequence): CheckpointDict
    requires rs != []
  {
    CheckpointDict(if LocalMin(rs) > 0 then Some(LocalMin(rs)) else None,
                   if |rs| > 1 then Some(Encode(rs)) else None,
                   if remote.NonNull() then Some(remote.ToJSON()) else None)
  }

  /** The completed sequences read back; a document that cannot be parsed gives a new checkpoint. */
  function Restore(root: Option<CheckpointDict>): Ranges
  {
    if root.None? then [Range(0, 1)]
    else if root.value.localCompleted.Some? then Read([Range(0, 1)], root.value.localCompleted.value).1
    else AddRange([Range(0, 1)], 0, ((if root.value.local.Some? then root.value.local.value else 0) + 1) % TWO_64)
  }

  function RestoredRemote(root: Option<CheckpointDict>): RemoteSequence
  {
    if root.Some? && root.value.remote.Some? then FromValue(root.value.remote.value) else NullSequence
  }

  lemma RestoreKeepsZero(root: Option<CheckpointDict>)
    ensures Canonical(Restore(root)) && Has(Restore(root), 0)
  {
    Initial();
    hide AddRange, ReadPairs, Has, Canonical;
    if root.Some? {
      var d := root.value;
      if d.localCompleted.Some? {
        ReadGrows([Range(0, 1)], d.localCompleted.value);
      } else {
        AddRangeCorrect([Range(0, 1)], 0, ((if d.local.Some? then d.local.value else 0) + 1) % TWO_64);
      }
    }
  }

  /** Numerals are JSON. */
  ghost predicate HasNumerals(json: string -> bool) { forall n: nat :: json(ToDecimal(n)) }

  /** A remote sequence that can be saved as it is: a raw text is JSON, and not an integer. */
  predicate CanSave(json: string -> bool, remote: RemoteSequence)
  {
    remote.Raw? && remote.json != "" ==> json(remote.json) && !IsInteger(remote.json)
  }

  /** What is left of the completed sequences after saving and reading back. */
  function Kept(json: string -> bool, completed: Ranges, remote: RemoteSequence): Ranges
  {
    if remote.Raw? && remote.json != "" && !json(remote.json) then [Range(0, 1)] else completed
  }

  /** Saving a checkpoint and reading it back gives the same checkpoint, exactly if its remote sequence
      can be saved; the completed sequences are lost only with the whole document. */
  lemma SaveRestore(json: string -> bool, rs: Ranges, remote: RemoteSequence)
    requires Canonical(rs) && Has(rs, 0) && forall i :: 0 <= i < |rs| ==> rs[i].end < TWO_64
    requires HasNumerals(json)
    ensures rs != []
    ensures var root := Save(rs, remote).Parsed(json);
            && (Restore(root) == rs && RestoredRemote(root) == remote <==> CanSave(json, remote))
            && Restore(root) == Kept(json, rs, remote)
  {
    LocalMinIsExact(rs);
    hide AddRange, Read, Encode, Canonical, Has, FromValue, IsInteger;
    RestoreSaved(rs, remote);
    ValueRoundTrip(remote);
    EmptyIsNoInteger();
  }

  lemma EmptyIsNoInteger()
    ensures !IsInteger("")
  {
  }

  /** A remote sequence made from a JSON value, as every one is that a checkpoint holds, can be saved; and so
      can what is kept of two such. */
  lemma ValuesCanSave(json: string -> bool, text: string, mine: RemoteSequence, theirs: RemoteSequence)
    ensures json(text) ==> CanSave(json, FromValue(text))
    ensures CanSave(json, mine) && CanSave(json, theirs) ==> CanSave(json, KeptRemote(mine, theirs))
  {
  }

  lemma RestoreSaved(rs: Ranges, remote: RemoteSequence)
    requires Canonical(rs) && rs != [] && Has(rs, 0) && forall i :: 0 <= i < |rs| ==> rs[i].end < TWO_64
    ensures Restore(Some(Save(rs, remote))) == rs
  {
    LocalMinIsExact(rs);
    hide AddRange, Read, Encode, Canonical, Has;
    ModSmall(LocalMin(rs) + 1);
    var d := Save(rs, remote);
    if |rs| > 1 {
      RestoreMany(rs);
      assert d.localCompleted == Some(Encode(rs));
    } else {
      RestoreOne(rs);
      assert d.localCompleted == None && (if d.local.Some? then d.local.value else 0) == LocalMin(rs);
    }
  }

  lemma ModSmall(n: int)
    requires 0 <= n < TWO_64
    ensures n % TWO_64 == n
  {
  }

  lemma RestoreMany(rs: Ranges)
    requires Canonical(rs) && Has(rs, 0) && forall i :: 0 <= i < |rs| ==> rs[i].end < TWO_64
    ensures Read([Range(0, 1)], Encode(rs)).1 == rs
  {
    Initial();
    hide Read, Encode, Has;
    ReadEncoded([Range(0, 1)], rs);
    CanonicalUnique(Read([Range(0, 1)], Encode(rs)).1, rs);
  }

  lemma RestoreOne(rs: Ranges)
    requires Canonical(rs) && |rs| == 1 && rs[0].first == 0
    ensures AddRange([Range(0, 1)], 0, rs[0].end) == rs
  {
    Initial();
    hide AddRange;
    AddRangeCorrect([Range(0, 1)], 0, rs[0].end);
    assert rs == [rs[0]];
    forall t ensures Has(rs, t) <==> 0 <= t < rs[0].end { HasOne(rs[0], t); }
    CanonicalUnique(AddRange([Range(0, 1)], 0, rs[0].end), rs);
  }

  class Checkpoint {
    var completed: Ranges
    var lastChecked: int
    var remote: RemoteSequence

    ghost predicate Valid()
      reads this
    {
      Canonical(completed) && Has(completed, 0)
    }

    constructor ()
      ensures Valid() && completed == [Range(0, 1)] && lastChecked == 0 && remote == NullSequence
    {
      completed, lastChecked, remote := [Range(0, 1)], 0, NullSequence;
      new;
      Initial();
    }

    method LocalMinSequence() returns (m: int)
      requires Valid()
      ensures m >= 0 && !Has(completed, m + 1)
      ensures forall t :: 0 <= t <= m ==> Has(completed, t)
      ensures completed != [] && m == LocalMin(completed)
    {
      LocalMinIsExact(completed);
      m := completed[0].end - 1;
    }

    method IsSequenceCompleted(s: int) returns (b: bool)
      requires Valid()
      ensures b <==> Has(completed, s)
    {
      ContainsCorrect(completed, s, s + 1);
      b := Contains(completed, s, s + 1);
    }

    method AddPendingSequence(s: int)
      requires Valid() && 0 < s
      modifies this
      ensures Valid() && completed == Apply(old(completed), Pending(s))
      ensures forall t :: Has(completed, t) <==> old(Has(completed, t)) && t != s
      ensures lastChecked == Max(old(lastChecked), s) && remote == old(remote)
    {
      hide Has, Canonical, Remove;
      ApplyCorrect(completed, Pending(s));
      lastChecked := Max(lastChecked, s);
      completed := Remove(completed, s);
    }

    method CompletedSequence(s: int)
      requires Valid() && 0 < s
      modifies this`completed
      ensures Valid() && completed == Apply(old(completed), Done(s))
      ensures forall t :: Has(completed, t) <==> old(Has(completed, t)) || t == s
    {
      hide Has, Canonical, Add;
      ApplyCorrect(completed, Done(s));
      completed := Add(completed, s);
    }

    /** All sequences from `first` to `last` are completed, then those in `revs` are not. */
    method AddPendingSequences(revs: seq<int>, first: int, last: int)
      requires Valid() && Checked(first, last, revs).Sane()
      modifies this
      ensures Valid() && completed == Apply(old(completed), Checked(first, last, revs))
      ensures forall t :: Has(completed, t) <==> t !in revs && (first <= t <= last || old(Has(completed, t)))
      ensures lastChecked == last && remote == old(remote)
    {
      hide Has, Canonical, AddRange, Remove;
      ApplyCorrect(completed, Checked(first, last, revs));
      lastChecked := last;
      completed := AddRange(completed, first, last + 1);
      ghost var rs := completed;
      for i := 0 to |revs|
        invariant completed == RemoveAll(rs, revs[..i]) && lastChecked == last && remote == old(remote)
      {
        assert revs[..i + 1][..i] == revs[..i];
        completed := Remove(completed, revs[i]);
      }
      assert revs[..|revs|] == revs;
    }

    /** Counts the gaps between the ranges, and what lies beyond the last of them. */
    method PendingSequenceCount() returns (count: int)
      requires Valid()
      ensures completed != []
      ensures count == |PendingUpTo(completed, Max(lastChecked, completed[|completed| - 1].end - 1))|
    {
      LocalMinIsExact(completed);
      hide Has, PendingUpTo;
      count := 0;
      var end := 0;
      assert |PendingUpTo(completed, -1)| == 0 by { NoneBelowZero(completed); }
      for i := 0 to |completed|
        invariant end == if i == 0 then 0 else completed[i - 1].end
        invariant count == |PendingUpTo(completed, end - 1)|
      {
        GapCount(completed, i, end);
        count := count + completed[i].first - end;
        end := completed[i].end;
      }
      if lastChecked > end - 1 {
        TailCount(completed, lastChecked);
        count := count + lastChecked - (end - 1);
      }
    }

    method SetRemoteMinSequence(s: RemoteSequence) returns (changed: bool)
      modifies this`remote
      ensures remote == s && (changed <==> old(remote) != s)
    {
      if s == remote { return false; }
      remote := s;
      return true;
    }

    /** What is written reads back as this checkpoint: the completed sequences if they have 64 bits, the
        remote sequence if it is not a text that is an integer. */
    method ToJSON() returns (d: CheckpointDict)
      requires Valid()
      ensures completed != [] && d == Save(completed, remote)
      ensures if d.local.None? then !Has(completed, 1)
              else && d.local.value > 0 && !Has(completed, d.local.value + 1)
                   && forall t :: 0 <= t <= d.local.value ==> Has(completed, t)
      ensures d.remote == if remote == NullSequence then None else Some(remote.ToJSON())
      ensures (forall i :: 0 <= i < |completed| ==> completed[i].end < TWO_64) ==> Restore(Some(d)) == completed
      ensures (remote.Raw? ==> !IsInteger(remote.json)) ==> RestoredRemote(Some(d)) == remote
    {
      var minSeq := LocalMinSequence();
      d := CheckpointDict(if minSeq > 0 then Some(minSeq) else None,
                          if |completed| > 1 then Some(Encode(completed)) else None,
                          if remote.NonNull() then Some(remote.ToJSON()) else None);
      ValueRoundTrip(remote);
      hide Has, Canonical, Read, AddRange, Encode, FromValue, IsInteger;
      if forall i :: 0 <= i < |completed| ==> completed[i].end < TWO_64 { RestoreSaved(completed, remote); }
    }

    /** Restores a saved checkpoint; None is a missing or unparseable document. */
    method ReadDict(root: Option<CheckpointDict>)
      modifies this
      ensures Valid() && lastChecked == 0
      ensures completed == Restore(root) && remote == RestoredRemote(root)
    {
      Initial();
      hide AddRange, Read, Canonical, Has, FromValue;
      RestoreKeepsZero(root);
      completed, lastChecked, remote := [Range(0, 1)], 0, NullSequence;
      if root.Some? {
        if root.value.remote.Some? { remote := FromValue(root.value.remote.value); }
        if root.value.localCompleted.Some? {
          var (_, rs) := Read(completed, root.value.localCompleted.value);
          completed := rs;
        } else {
          var minSequence := if root.value.local.Some? then root.value.local.value else 0;
          completed := AddRange(completed, 0, (minSequence + 1) % TWO_64);
        }
      }
    }

    /** Compares with the checkpoint the peer has saved, and falls back to what both agree on. */
    method ValidateWith(peer: Checkpoint) returns (match_: bool)
      requires Valid() && peer.Valid() && peer != this
      modifies this`completed, this`remote
      ensures Valid() && completed == Shared(old(completed), peer.completed)
      ensures forall t :: Has(completed, t) <==> old(Has(completed, t)) && Has(peer.completed, t)
      ensures remote == KeptRemote(old(remote), peer.remote) && Reconciles(old(remote), peer.remote, remote)
      ensures match_ <==> completed == old(completed) == peer.completed && remote == old(remote)
      ensures completed != [] && old(completed) != [] && peer.completed != []
      ensures LocalMin(completed) == Min(LocalMin(old(completed)), LocalMin(peer.completed))
    {
      match_ := true;
      KeptRemoteExactly(remote, peer.remote);
      hide Has, Canonical, Shared, Reconciles;
      SharedCorrect(completed, peer.completed);
      if completed == peer.completed { SharedSame(completed); }
      if completed != peer.completed {
        completed := Intersection(completed, peer.completed);
        match_ := false;
      }
      if remote.NonNull() && remote != peer.remote {
        var m, t := remote.ToParsedSequenceID(), peer.remote.ToParsedSequenceID();
        if m.Some? && t.Some? {
          if t.value.Before(m.value) {
            remote := peer.remote;
            match_ := false;
          }
        } else {
          remote := NullSequence;
          match_ := false;
        }
      }
      IntersectionMin(old(completed), peer.completed, completed);
    }
  }

  /** Validating again, against the same peer, changes nothing: the second call leaves what the first one
      did, and reports a match exactly if the completed sequences are now the peer's. */
  method ValidateTwice(mine: Checkpoint, peer: Checkpoint) returns (once: bool, twice: bool)
    requires mine.Valid() && peer.Valid() && peer != mine
    modifies mine`completed, mine`remote
    ensures mine.completed == Shared(old(mine.completed), peer.completed)
    ensures mine.remote == KeptRemote(old(mine.remote), peer.remote)
    ensures once <==> mine.completed == old(mine.completed) == peer.completed && mine.remote == old(mine.remote)
    ensures twice <==> mine.completed == peer.completed
  {
    hide Has, Canonical, Shared, KeptRemote;
    SharedTwice(mine.completed, peer.completed);
    KeptRemoteIsEarlier(mine.remote, peer.remote);
    once := mine.ValidateWith(peer);
    twice := mine.ValidateWith(peer);
  }
}
