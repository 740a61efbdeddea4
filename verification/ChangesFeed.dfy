/** What a feed of changes promises, told on values. */
module FeedLaws {
  import opened SequenceSets
  import opened Changes

  /** The filters of a feed: `pass` stands for document IDs, expiration, the push filter and the check
      for foreign ancestors, `echo` for a change that came from the same peer. */
  datatype Filters = Filters(pass: Change -> bool, echo: Change -> bool, active: bool)

  /** What a feed is to hand over. An active replicator also leaves out what its checkpoint, when the feed
      started, said was pushed before. */
  datatype Law = Law(filters: Filters, resumed: Ranges) {
    ghost predicate Finished(c: Change) { filters.active && Has(resumed, c.sequence) }

    /** A document to hand over when it is found. */
    ghost predicate Wanted(c: Change) { filters.pass(c) && !Finished(c) }

    /** A document to hand over however it is found: the observer's changes may also be echoes. */
    ghost predicate Eligible(c: Change) { Wanted(c) && !filters.echo(c) }
  }

  /** Those of the changes that are offered. */
  ghost function Offered(f: Law, cs: seq<Change>): (r: seq<Change>)
    ensures |r| <= |cs|
    ensures forall c :: c in r <==> c in cs && f.Wanted(c)
  {
    if cs == [] then []
    else
      var front, last := Offered(f, cs[..|cs| - 1]), cs[|cs| - 1];
      assert cs == cs[..|cs| - 1] + [last];
      if f.Wanted(last) then front + [last] else front
  }

  /** The changes with sequences above `since`: what the by-sequence enumerator visits. */
  function Since(docs: seq<Change>, since: int): (r: seq<Change>)
    ensures |r| <= |docs| && Among(r, docs)
  {
    if docs == [] || docs[0].sequence > since then docs else Since(docs[1..], since)
  }

  /** What a feed has done up to `max`: the changes handed over. */
  datatype Scan = Scan(max: int, given: seq<Change>)

  /** Every eligible document whose current sequence has been passed was handed over. */
  ghost predicate Complete(docs: seq<Change>, start: int, f: Law, s: Scan)
  {
    forall c :: c in docs && start < c.sequence <= s.max && f.Eligible(c) ==> c in s.given
  }

  /** Only changes that were made and pass are handed over, in the order of their sequences, so each
      once. */
  ghost predicate Sound(log: seq<Change>, start: int, f: Law, s: Scan)
  {
    && Ordered(s.given) && AllAbove(s.given, start) && AtMost(s.given, s.max) && Among(s.given, log)
    && forall c :: c in s.given ==> f.Wanted(c)
  }

  /** Every eligible document beyond `max` is in the queue. */
  ghost predicate Follows(docs: seq<Change>, queue: seq<Change>, f: Law, max: int)
  {
    forall c :: c in docs && c.sequence > max && f.Eligible(c) ==> c in queue
  }

  /** The position is one of the collection's, or still the start. */
  predicate Placed(last: int, start: int, max: int) { max <= last || max == start }

  /** Of what is above `floor`, where a call started, nothing in the queue was passed by. */
  ghost predicate Fresh(queue: seq<Change>, floor: int, max: int)
  {
    forall c :: c in queue && c.sequence > floor ==> c.sequence > max
  }

  // ---- Changes of the database

  lemma CompleteNext(w: World, e: DbEvent, start: int, f: Law, s: Scan)
    requires w.Valid() && Placed(w.last, start, s.max) && Complete(w.docs, start, f, s)
    ensures Complete(w.Next(e).docs, start, f, s)
  {
    hide Ordered, Distinct, Law.Eligible;
  }

  lemma FollowsNext(w: World, e: DbEvent, f: Law, max: int)
    requires w.Valid() && w.observing && Follows(w.docs, w.queue, f, max)
    ensures Follows(w.Next(e).docs, w.Next(e).queue, f, max)
  {
    hide Ordered, Distinct, Law.Eligible;
  }

  lemma FreshNext(w: World, e: DbEvent, start: int, floor: int, max: int)
    requires w.Valid() && 0 <= start <= floor <= max && Placed(w.last, start, max) && Fresh(w.queue, floor, max)
    ensures Fresh(w.Next(e).queue, floor, max)
  {
    hide Ordered, Distinct;
  }

  lemma SoundNext(w: World, e: DbEvent, start: int, f: Law, s: Scan)
    requires Sound(w.log, start, f, s)
    ensures Sound(w.Next(e).log, start, f, s)
  {
    hide Ordered;
  }

  // ---- One observed change

  /** What an observed change does to a call that started at `floor`: `before` was handed over by
      earlier calls, `revs` by this one. An older change of the same document is taken back. */
  datatype Call = Call(max: int, revs: seq<Change>) {
    ghost function Observe(f: Law, floor: int, c: Change): Call
    {
      if c.sequence <= floor then this
      else if f.filters.echo(c) || !f.Wanted(c) then this.(max := c.sequence)
      else Call(c.sequence, Touch(revs, c))
    }

    function After(before: seq<Change>): Scan { Scan(max, before + revs) }

    /** The revs of this call are of different documents and above the floor. */
    ghost predicate Valid(log: seq<Change>, f: Law, floor: int)
    {
      && floor <= max && Ordered(revs) && Distinct(revs) && AllAbove(revs, floor) && AtMost(revs, max) && Among(revs, log)
      && forall c :: c in revs ==> f.Wanted(c)
    }
  }

  lemma ObserveValid(w: World, f: Law, floor: int, call: Call, c: Change)
    requires w.Valid() && call.Valid(w.log, f, floor) && 0 <= floor
    requires c.sequence > floor ==> c.sequence > call.max && c in w.docs
    ensures call.Observe(f, floor, c).Valid(w.log, f, floor)
  {
    if c.sequence > floor { TouchKeeps(call.revs, c); }
    hide Ordered, Distinct, Without, Has;
  }

  lemma ObserveFollows(docs: seq<Change>, f: Law, floor: int, call: Call, c: Change,
                       queue: seq<Change>)
    requires Follows(docs, [c] + queue, f, call.max) && floor <= call.max && (c.sequence > floor ==> c.sequence > call.max)
    ensures Follows(docs, queue, f, call.Observe(f, floor, c).max)
  {
  }

  lemma ObserveFresh(f: Law, floor: int, call: Call, c: Change, queue: seq<Change>)
    requires Ordered([c] + queue) && Fresh([c] + queue, floor, call.max) && 0 <= floor <= call.max
    ensures Fresh(queue, floor, call.Observe(f, floor, c).max)
  {
    var max := call.Observe(f, floor, c).max;
    forall x | x in queue && x.sequence > floor ensures x.sequence > max {
      var i :| 0 <= i < |queue| && queue[i] == x;
      assert ([c] + queue)[i + 1] == x && ([c] + queue)[0] == c && x in [c] + queue;
    }
  }

  lemma ObserveComplete(docs: seq<Change>, start: int, f: Law, floor: int, call: Call,
                        c: Change, queue: seq<Change>, before: seq<Change>)
    requires Distinct(docs) && Ordered([c] + queue) && Follows(docs, [c] + queue, f, call.max) && AllAbove(docs, 0)
    requires c.sequence > floor ==> c in docs && c.sequence > call.max
    requires 0 <= floor <= call.max && Complete(docs, start, f, call.After(before))
    ensures Complete(docs, start, f, call.Observe(f, floor, c).After(before))
  {
    hide Has;
    var call' := call.Observe(f, floor, c);
    forall x | x in docs && start < x.sequence <= call'.max && f.Eligible(x) ensures x in before + call'.revs {
      if x.sequence > call.max {
        OnlyFirst(c, queue, x);
        assert x == c;
      } else if c.sequence > floor {
        SameDocument(docs, x, c);
      }
    }
  }

  /** Of the queue only its first can be at or below that. */
  lemma OnlyFirst(c: Change, queue: seq<Change>, x: Change)
    requires Ordered([c] + queue) && x in [c] + queue && 0 < x.sequence <= c.sequence
    ensures x == c
  {
    var i :| 0 <= i < |[c] + queue| && ([c] + queue)[i] == x;
    assert ([c] + queue)[0] == c;
  }

  lemma SameDocument(docs: seq<Change>, x: Change, c: Change)
    requires Distinct(docs) && x in docs && c in docs
    ensures x.docID == c.docID ==> x == c
  {
    var i :| 0 <= i < |docs| && docs[i] == x;
    var j :| 0 <= j < |docs| && docs[j] == c;
    if i < j {} else if j < i {}
  }

  // ---- Several observed changes

  ghost function ObserveAll(call: Call, f: Law, floor: int, cs: seq<Change>): Call
  {
    if cs == [] then call
    else ObserveAll(call, f, floor, cs[..|cs| - 1]).Observe(f, floor, cs[|cs| - 1])
  }

  /** What holds between two observed changes: the rest of the batch and the queue are what is left. */
  ghost predicate Observed(w: World, rest: seq<Change>, start: int, f: Law, floor: int, before: seq<Change>,
                           call: Call, lost: bool)
  {
    && call.Valid(w.log, f, floor) && Placed(w.last, start, call.max) && start <= floor
    && Fresh(rest, floor, call.max)
    && (lost || (Complete(w.docs, start, f, call.After(before)) && Follows(w.docs, rest, f, call.max)))
  }

  lemma ObservedNext(w: World, e: DbEvent, start: int, f: Law, floor: int, before: seq<Change>, call: Call,
                     lost: bool)
    requires w.Valid() && w.observing && 0 <= start
    requires Observed(w, w.queue, start, f, floor, before, call, lost)
    ensures Observed(w.Next(e), w.Next(e).queue, start, f, floor, before, call, lost)
  {
    FreshNext(w, e, start, floor, call.max);
    if !lost {
      CompleteNext(w, e, start, f, call.After(before));
      FollowsNext(w, e, f, call.max);
    }
    assert Among(w.log, w.Next(e).log);
    hide Complete, Follows, Fresh, Ordered, Distinct, World.Valid;
  }

  lemma ObservedOne(w: World, c: Change, rest: seq<Change>, start: int, f: Law, floor: int,
                    before: seq<Change>, call: Call, lost: bool)
    requires w.Valid() && 0 <= start && Ordered([c] + rest) && Current(w.docs, [c] + rest)
    requires Observed(w, [c] + rest, start, f, floor, before, call, lost)
    ensures Observed(w, rest, start, f, floor, before, call.Observe(f, floor, c), lost)
  {
    assert c in [c] + rest;
    ObserveValid(w, f, floor, call, c);
    ObserveFresh(f, floor, call, c, rest);
    if !lost {
      ObserveFollows(w.docs, f, floor, call, c, rest);
      ObserveComplete(w.docs, start, f, floor, call, c, rest, before);
    }
    hide Complete, Follows, Fresh, Ordered, Distinct;
  }

  /** Through any part of a batch. */
  lemma {:induction false} ObservedPart(w: World, batch: seq<Change>, i: nat, start: int, f: Law,
                                        floor: int, before: seq<Change>, call: Call, lost: bool)
    requires i <= |batch| && w.Valid() && 0 <= start && Ordered(batch + w.queue) && Current(w.docs, batch + w.queue)
    requires Observed(w, batch + w.queue, start, f, floor, before, call, lost)
    ensures Observed(w, batch[i..] + w.queue, start, f, floor, before,
                     ObserveAll(call, f, floor, batch[..i]), lost)
  {
    hide Observed, Ordered, Current, World.Valid, Call.Observe;
    if i == 0 {
      assert batch[0..] == batch;
    } else {
      ObservedPart(w, batch, i - 1, start, f, floor, before, call, lost);
      var c, rest := batch[i - 1], batch[i..] + w.queue;
      PartOf(w.docs, batch + w.queue, i - 1);
      SplitAt(batch, w.queue, i);
      var call' := ObserveAll(call, f, floor, batch[..i - 1]);
      ObservedOne(w, c, rest, start, f, floor, before, call', lost);
    }
  }

  lemma SplitAt(a: seq<Change>, b: seq<Change>, i: nat)
    requires 0 < i <= |a|
    ensures a[i - 1..] + b == [a[i - 1]] + (a[i..] + b) == (a + b)[i - 1..]
    ensures a[..i][..i - 1] == a[..i - 1]
  {
  }

  lemma PartOf(docs: seq<Change>, cs: seq<Change>, i: nat)
    requires i <= |cs| && Ordered(cs) && Current(docs, cs)
    ensures Ordered(cs[i..]) && Current(docs, cs[i..])
  {
  }

  /** What is handed over, and the position, when these changes are seen. */
  lemma {:induction false} ObservedOnly(call: Call, f: Law, floor: int, cs: seq<Change>)
    ensures forall c :: c in ObserveAll(call, f, floor, cs).revs ==> c in call.revs || c in cs
  {
    hide Law.Wanted;
    if cs != [] {
      ObservedOnly(call, f, floor, cs[..|cs| - 1]);
      assert cs == cs[..|cs| - 1] + [cs[|cs| - 1]];
    }
  }

  /** A change that the observer's reader takes: beyond the position at which the call began, and eligible, so no
      echo. */
  ghost predicate Takes(f: Law, floor: int, c: Change) { c.sequence > floor && f.Eligible(c) }

  /** The change at `i` is taken, and no later one of its document is. */
  ghost predicate LastTaken(f: Law, floor: int, cs: seq<Change>, i: nat)
    requires i < |cs|
  {
    Takes(f, floor, cs[i]) && forall j :: i < j < |cs| && Takes(f, floor, cs[j]) ==> cs[j].docID != cs[i].docID
  }

  ghost predicate IsLastTaken(f: Law, floor: int, cs: seq<Change>, c: Change)
  {
    exists i :: 0 <= i < |cs| && cs[i] == c && LastTaken(f, floor, cs, i)
  }

  /** What a call makes of the changes it has seen: it hands over the last one taken of each document, no echo and
      nothing filtered, and its position is the last one it saw beyond where it began. */
  lemma {:induction false} ObserveAllMeans(f: Law, floor: int, cs: seq<Change>)
    ensures var call := ObserveAll(Call(floor, []), f, floor, cs);
            && (forall c :: c in call.revs <==> IsLastTaken(f, floor, cs, c))
            && call.max == LastBeyond(floor, cs)
  {
    hide IsLastTaken, Takes, Law.Eligible, Law.Wanted;
    if cs == [] {
      NoneTaken(f, floor);
    } else {
      var front, last := cs[..|cs| - 1], cs[|cs| - 1];
      ObserveAllMeans(f, floor, front);
      TakesExactly(f, floor, last);
      forall c ensures IsLastTaken(f, floor, cs, c) <==>
                         if Takes(f, floor, last) && c.docID == last.docID then c == last
                         else IsLastTaken(f, floor, front, c)
      {
        IsLastTakenMore(f, floor, cs, c);
      }
    }
  }

  lemma NoneTaken(f: Law, floor: int)
    ensures forall c :: !IsLastTaken(f, floor, [], c)
  {
  }

  lemma IsLastTakenMore(f: Law, floor: int, cs: seq<Change>, c: Change)
    requires cs != []
    ensures var front, last := cs[..|cs| - 1], cs[|cs| - 1];
            IsLastTaken(f, floor, cs, c) <==>
              if Takes(f, floor, last) && c.docID == last.docID then c == last else IsLastTaken(f, floor, front, c)
  {
    var k := |cs| - 1;
    var front, last := cs[..k], cs[k];
    hide Takes;
    assert LastTaken(f, floor, cs, k) <==> Takes(f, floor, last);
    if IsLastTaken(f, floor, cs, c) {
      var i :| 0 <= i < |cs| && cs[i] == c && LastTaken(f, floor, cs, i);
      if i < k {
        LastTakenMore(f, floor, cs, i);
        assert front[i] == c;
      }
    }
    if IsLastTaken(f, floor, front, c) {
      var i :| 0 <= i < k && front[i] == c && LastTaken(f, floor, front, i);
      LastTakenMore(f, floor, cs, i);
      assert cs[i] == c;
    }
  }

  /** The last sequence beyond `floor`, or `floor`. */
  function LastBeyond(floor: int, cs: seq<Change>): int
  {
    if cs == [] then floor
    else if cs[|cs| - 1].sequence > floor then cs[|cs| - 1].sequence else LastBeyond(floor, cs[..|cs| - 1])
  }

  lemma LastTakenMore(f: Law, floor: int, cs: seq<Change>, i: nat)
    requires i < |cs| - 1
    ensures var k := |cs| - 1;
            LastTaken(f, floor, cs, i) <==>
              LastTaken(f, floor, cs[..k], i) && !(Takes(f, floor, cs[k]) && cs[k].docID == cs[i].docID)
  {
    hide Takes;
    var k := |cs| - 1;
    assert forall j :: 0 <= j < k ==> cs[..k][j] == cs[j];
    if LastTaken(f, floor, cs[..k], i) && !(Takes(f, floor, cs[k]) && cs[k].docID == cs[i].docID) {
      forall j | i < j < |cs| && Takes(f, floor, cs[j]) ensures cs[j].docID != cs[i].docID {
        if j < k { assert cs[..k][j] == cs[j]; }
      }
    }
  }

  lemma TakesExactly(f: Law, floor: int, c: Change)
    ensures Takes(f, floor, c) <==> c.sequence > floor && f.Wanted(c) && !f.filters.echo(c)
  {
  }

  lemma {:induction false} ObservedJoin(call: Call, f: Law, floor: int, a: seq<Change>, b: seq<Change>)
    ensures ObserveAll(call, f, floor, a + b) == ObserveAll(ObserveAll(call, f, floor, a), f, floor, b)
  {
    hide Call.Observe;
    if b == [] {
      assert a + b == a;
    } else {
      ObservedJoin(call, f, floor, a, b[..|b| - 1]);
      assert (a + b)[..|a + b| - 1] == a + b[..|b| - 1];
    }
  }

  // ---- Between calls

  /** What holds between calls; `following` once the feed relies on the observer. */
  ghost predicate Holds(w: World, start: int, f: Law, s: Scan, following: bool, lost: bool)
  {
    && w.Valid() && 0 <= start <= s.max && Placed(w.last, start, s.max) && Sound(w.log, start, f, s)
    && (lost || Complete(w.docs, start, f, s))
    && (if following then w.observing && (lost || Follows(w.docs, w.queue, f, s.max)) else w.observing ==> w.Whole())
  }

  lemma HoldsNext(w: World, e: DbEvent, start: int, f: Law, s: Scan, following: bool, lost: bool)
    requires Holds(w, start, f, s, following, lost)
    ensures Holds(w.Next(e), start, f, s, following, lost)
  {
    w.NextIsValid(e);
    SoundNext(w, e, start, f, s);
    if !lost {
      CompleteNext(w, e, start, f, s);
      if following { FollowsNext(w, e, f, s.max); }
    }
    if w.observing && !following { w.NextIsWhole(e); }
    hide Complete, Follows, Sound, World.Valid, World.Whole, Touch, Without;
  }

  lemma BeginObserving(w: World, start: int, f: Law, s: Scan, lost: bool)
    requires Holds(w, start, f, s, true, lost)
    ensures Observed(w, w.queue, start, f, s.max, s.given, Call(s.max, []), lost)
  {
    assert s.given + [] == s.given;
    assert Call(s.max, []).After(s.given) == s;
    hide Complete, Follows, World.Valid;
  }

  lemma EndObserving(w: World, start: int, f: Law, s: Scan, call: Call, lost: bool)
    requires w.Valid() && w.observing && 0 <= start <= s.max && Sound(w.log, start, f, s)
    requires Observed(w, w.queue, start, f, s.max, s.given, call, lost)
    ensures Holds(w, start, f, call.After(s.given), true, lost)
  {
    Joined(s.given, call.revs, s.max);
    hide Complete, Follows, World.Valid, Ordered, Distinct, Law.Wanted;
  }

  // ---- The historical changes

  /** How far `n` steps of the enumerator bring a feed. */
  function Reached(es: seq<Change>, n: nat, max: int): int
    requires n <= |es|
  {
    if n == 0 then max else es[n - 1].sequence
  }

  /** What `n` steps of the enumerator make of a feed. If then a filter `threw`, the position has passed one
      more document, which was not handed over. */
  ghost function Enumerated(docs: seq<Change>, f: Law, s: Scan, n: nat, threw: bool): Scan
    requires n <= |Since(docs, s.max)| && (threw ==> n < |Since(docs, s.max)|)
  {
    var es := Since(docs, s.max);
    Scan(Reached(es, if threw then n + 1 else n, s.max), s.given + Offered(f, es[..n]))
  }

  /** The enumerator visits exactly the documents beyond `since`, in order. */
  lemma {:induction false} SinceIsAll(docs: seq<Change>, since: int)
    requires Ordered(docs) && AllAbove(docs, 0)
    ensures Ordered(Since(docs, since)) && AllAbove(Since(docs, since), since)
    ensures forall c :: c in docs && c.sequence > since ==> c in Since(docs, since)
  {
    if docs == [] {
    } else if docs[0].sequence > since {
      FirstIsLeast(docs);
    } else {
      OrderedTail(docs);
      SinceIsAll(docs[1..], since);
      hide Ordered;
      assert docs == [docs[0]] + docs[1..];
    }
  }

  lemma FirstIsLeast(docs: seq<Change>)
    requires docs != [] && Ordered(docs) && AllAbove(docs, 0)
    ensures forall c :: c in docs ==> docs[0].sequence <= c.sequence
  {
    forall c | c in docs ensures docs[0].sequence <= c.sequence {
      var i :| 0 <= i < |docs| && docs[i] == c;
    }
  }

  lemma OrderedTail(docs: seq<Change>)
    requires docs != [] && Ordered(docs) && AllAbove(docs, 0)
    ensures Ordered(docs[1..]) && AllAbove(docs[1..], 0) && AllAbove(docs[1..], docs[0].sequence)
  {
    forall c | c in docs[1..] ensures docs[0].sequence < c.sequence {
      var i :| 0 <= i < |docs[1..]| && docs[1..][i] == c;
      assert docs[i + 1] == c && docs[0] in docs && c in docs;
    }
  }

  /** After `n` steps the enumerator would go on with the rest. */
  lemma {:induction false} SinceReached(docs: seq<Change>, since: int, n: nat)
    requires Ordered(docs) && AllAbove(docs, 0) && n <= |Since(docs, since)|
    ensures Since(docs, Reached(Since(docs, since), n, since)) == Since(docs, since)[n..]
  {
    if docs == [] {
    } else if docs[0].sequence > since {
      if n > 0 { SinceNth(docs, n); }
    } else {
      OrderedTail(docs);
      SinceReached(docs[1..], since, n);
      SinceIsAll(docs[1..], since);
      var es := Since(docs[1..], since);
      if n > 0 { assert es[n - 1] in es; }
    }
  }

  lemma {:induction false} SinceNth(docs: seq<Change>, n: nat)
    requires Ordered(docs) && AllAbove(docs, 0) && 0 < n <= |docs|
    ensures Since(docs, docs[n - 1].sequence) == docs[n..]
  {
    OrderedTail(docs);
    FirstIsLeast(docs);
    assert docs[n - 1] in docs;
    if n == 1 {
      if |docs| > 1 { assert docs[1..][0] in docs[1..]; }
    } else {
      SinceNth(docs[1..], n - 1);
      assert docs[1..][n - 1..] == docs[n..] && docs[1..][n - 2] == docs[n - 1];
    }
  }

  lemma AmongFirst(es: seq<Change>, n: nat, max: int, c: Change)
    requires n <= |es| && Ordered(es) && AllAbove(es, 0) && c in es && max < c.sequence <= Reached(es, n, max)
    ensures c in es[..n]
  {
    var i :| 0 <= i < |es| && es[i] == c;
    assert es[n - 1] in es;
    assert es[..n][i] == c;
  }

  /** Such a reading of the history leaves nothing out, exactly unless a filter threw at an eligible
      document. */
  lemma EnumeratedComplete(w: World, start: int, f: Law, s: Scan, n: nat, threw: bool)
    requires w.Valid() && n <= |Since(w.docs, s.max)| && (threw ==> n < |Since(w.docs, s.max)|) && 0 <= start <= s.max
    requires Complete(w.docs, start, f, s) && AtMost(s.given, s.max)
    ensures Complete(w.docs, start, f, Enumerated(w.docs, f, s, n, threw))
       <==> !(threw && f.Eligible(Since(w.docs, s.max)[n]))
  {
    var es := Since(w.docs, s.max);
    var s' := Enumerated(w.docs, f, s, n, threw);
    SinceIsAll(w.docs, s.max);
    if threw { NotYetVisited(es, n); }
    hide Since, Has, Ordered, Offered, AllAbove, Law.Eligible, World.Valid;
    forall c | c in w.docs && start < c.sequence <= s'.max && f.Eligible(c) && !(threw && c == es[n])
      ensures c in s'.given
    {
      if c.sequence > s.max { AmongVisited(es, n, threw, s.max, c); }
    }
    if threw { assert es[n] in es && es[n] !in s.given; }
  }

  lemma AmongVisited(es: seq<Change>, n: nat, threw: bool, max: int, c: Change)
    requires n <= |es| && (threw ==> n < |es|) && Ordered(es) && AllAbove(es, 0) && c in es
    requires max < c.sequence <= Reached(es, if threw then n + 1 else n, max)
    ensures c in es[..n] || (threw && c == es[n])
  {
    AmongFirst(es, if threw then n + 1 else n, max, c);
    if threw { assert es[..n + 1] == es[..n] + [es[n]]; }
  }

  lemma NotYetVisited(es: seq<Change>, n: nat)
    requires n < |es| && Ordered(es) && AllAbove(es, 0)
    ensures es[n] !in es[..n]
  {
    assert forall i :: 0 <= i < |es| ==> es[i] in es;
  }

  /** Nothing is left beyond what a whole enumeration has reached, and only then. */
  lemma EnumeratedAll(docs: seq<Change>, since: int, n: nat)
    requires Ordered(docs) && AllAbove(docs, 0) && n <= |Since(docs, since)|
    ensures var max := Reached(Since(docs, since), n, since);
            (forall c :: c in docs ==> c.sequence <= max) <==> n == |Since(docs, since)|
  {
    var es := Since(docs, since);
    var max := Reached(es, n, since);
    SinceReached(docs, since, n);
    SinceIsAll(docs, max);
    var rest := Since(docs, max);
    hide Since, Ordered;
    if rest != [] { assert rest[0] in rest && rest[0] in docs; }
  }

  lemma EnumeratedSound(w: World, start: int, f: Law, s: Scan, n: nat, threw: bool)
    requires w.Valid() && 0 <= start <= s.max && Placed(w.last, start, s.max) && Sound(w.log, start, f, s)
    requires n <= |Since(w.docs, s.max)| && (threw ==> n < |Since(w.docs, s.max)|)
    ensures var s' := Enumerated(w.docs, f, s, n, threw);
            && Sound(w.log, start, f, s') && s.max <= s'.max && Placed(w.last, start, s'.max)
            && Between(Offered(f, Since(w.docs, s.max)[..n]), s.max, s'.max)
  {
    var es := Since(w.docs, s.max);
    SinceIsAll(w.docs, s.max);
    ReachedWithin(es, n, threw, s.max, w.last);
    OfferedOrdered(f, es, s.max, n);
    hide Since, Offered, Ordered, Distinct, Has, Reached;
    Joined(s.given, Offered(f, es[..n]), s.max);
  }

  /** The position moves on, and not beyond the last sequence. */
  lemma ReachedWithin(es: seq<Change>, n: nat, threw: bool, max: int, last: int)
    requires n <= |es| && (threw ==> n < |es|) && Ordered(es) && AllAbove(es, max) && AtMost(es, last) && 0 <= max
    ensures var k := if threw then n + 1 else n;
            && max <= Reached(es, n, max) <= Reached(es, k, max)
            && (k > 0 ==> Reached(es, k, max) <= last)
  {
    assert forall i :: 0 <= i < |es| ==> es[i] in es;
  }

  lemma {:induction false} OfferedOrdered(f: Law, es: seq<Change>, max: int, n: nat)
    requires n <= |es| && Ordered(es) && AllAbove(es, max) && max >= 0
    ensures Ordered(Offered(f, es[..n])) && AllAbove(Offered(f, es[..n]), max)
    ensures AtMost(Offered(f, es[..n]), Reached(es, n, max))
    ensures Among(Offered(f, es[..n]), es)
  {
    if n > 0 {
      OfferedOrdered(f, es, max, n - 1);
      assert es[..n][..n - 1] == es[..n - 1] && es[n - 1] in es;
      if n > 1 { assert es[n - 2] in es; }
      var front := Offered(f, es[..n - 1]);
      hide Has;
      AppendOrdered(front, es[n - 1]);
    }
  }

  lemma AppendOrdered(cs: seq<Change>, c: Change)
    requires Ordered(cs) && AtMost(cs, c.sequence - 1)
    ensures Ordered(cs + [c])
  {
    forall i | 0 <= i < |cs| ensures (cs + [c])[i].sequence < c.sequence { assert cs[i] in cs; }
  }

  lemma Joined(a: seq<Change>, b: seq<Change>, max: int)
    requires Ordered(a) && Ordered(b) && AtMost(a, max) && AllAbove(b, max)
    ensures Ordered(a + b)
  {
    var r := a + b;
    assert forall i :: 0 <= i < |a| ==> r[i] in a;
    assert forall i :: |a| <= i < |r| ==> r[i] == b[i - |a|] && r[i] in b;
  }

  /** Some eligible document beyond `max` had its sequence before the observer began. */
  ghost predicate Overlooked(w: World, f: Law, max: int)
  {
    exists c :: c in w.docs && f.Eligible(c) && max < c.sequence <= w.from
  }

  /** A feed that takes itself to have caught up at `max` can rely on an observer whose list has not been read
      exactly if no eligible document between `max` and the observer's beginning is left. */
  lemma CaughtUpExactly(w: World, f: Law, max: int)
    requires w.Whole()
    ensures Follows(w.docs, w.queue, f, max) <==> !Overlooked(w, f, max)
  {
    hide Law.Eligible;
  }

  /** When a reading of the history breaks the promise of the feed: a filter threw at an eligible document, or
      the feed takes itself to have caught up though it has not visited one that the observer does not
      know of. */
  ghost predicate Breaks(w: World, f: Law, s: Scan, n: nat, threw: bool, following: bool)
    requires n <= |Since(w.docs, s.max)| && (threw ==> n < |Since(w.docs, s.max)|)
  {
    || (threw && f.Eligible(Since(w.docs, s.max)[n]))
    || (following && Overlooked(w, f, Enumerated(w.docs, f, s, n, threw).max))
  }

  /** A reading of the history keeps what holds; the promise is kept exactly unless it breaks it so. */
  lemma EnumeratedHolds(w: World, start: int, f: Law, s: Scan, n: nat, threw: bool, lost: bool, following: bool)
    requires n <= |Since(w.docs, s.max)| && (threw ==> n < |Since(w.docs, s.max)|)
    requires Holds(w, start, f, s, false, lost) && (following ==> w.observing)
    ensures var s' := Enumerated(w.docs, f, s, n, threw);
            && Holds(w, start, f, s', following, lost || Breaks(w, f, s, n, threw, following))
            && (!lost ==> (Holds(w, start, f, s', following, false) <==> !Breaks(w, f, s, n, threw, following)))
  {
    EnumeratedSound(w, start, f, s, n, threw);
    if !lost { EnumeratedComplete(w, start, f, s, n, threw); }
    if following { CaughtUpExactly(w, f, Enumerated(w.docs, f, s, n, threw).max); }
    hide Complete, Sound, Since, Offered, World.Valid, World.Whole, Overlooked, Follows, Enumerated, Law.Eligible;
  }

  /** A reading that came to the end, or that leaves a feed that is not caught up, and in which no filter
      threw, does not. */
  lemma WholeReadingKeeps(w: World, f: Law, s: Scan, n: nat, following: bool)
    requires w.Valid() && n <= |Since(w.docs, s.max)| && (following ==> n == |Since(w.docs, s.max)|)
    ensures !Breaks(w, f, s, n, false, following)
  {
    EnumeratedAll(w.docs, s.max, n);
    hide Since, Law.Eligible, Offered;
  }

  /** Every eligible document beyond the start was handed over. */
  ghost predicate NothingLeft(docs: seq<Change>, start: int, f: Law, given: seq<Change>)
  {
    forall c :: c in docs && start < c.sequence && f.Eligible(c) ==> c in given
  }

  /** A reading of the history that came to the end has left nothing. */
  lemma HistoryRead(w: World, start: int, f: Law, s: Scan, n: nat)
    requires w.Valid() && n == |Since(w.docs, s.max)|
    requires Complete(w.docs, start, f, Enumerated(w.docs, f, s, n, false))
    ensures NothingLeft(w.docs, start, f, Enumerated(w.docs, f, s, n, false).given)
  {
    EnumeratedAll(w.docs, s.max, n);
    hide Since, Law.Eligible, Offered;
  }

  /** Nor has one of the observer's list that emptied it. */
  lemma ListRead(docs: seq<Change>, start: int, f: Law, s: Scan)
    requires Complete(docs, start, f, s) && Follows(docs, [], f, s.max)
    ensures NothingLeft(docs, start, f, s.given)
  {
    hide Law.Eligible;
  }

  /** The changes lie between `floor` and `max`. */
  ghost predicate Between(revs: seq<Change>, floor: int, max: int)
  {
    floor <= max && AllAbove(revs, floor) && AtMost(revs, max)
  }
}

/** Replicator/ChangesFeed.cc */
module ChangesFeeds {
  import opened Common
  import opened SequenceSets
  import opened PushLedger
  import opened Checkpoints
  import opened Changes
  import opened FeedLaws

  /** The most changes taken from the observer at once. */
  const MAX_CHANGES := 100

  /** Where the reading of the history throws: when the enumerator goes on to its `at`-th document, or in a
      filter, when the position has moved to that document. */
  datatype Throw = InNext(at: nat) | InFilter(at: nat)

  function Sequences(cs: seq<Change>): (r: seq<int>)
    ensures |r| == |cs| && forall i :: 0 <= i < |cs| ==> r[i] == cs[i].sequence
  {
    if cs == [] then [] else Sequences(cs[..|cs| - 1]) + [cs[|cs| - 1].sequence]
  }

  /** The same sequences beyond `max`. */
  ghost predicate Agrees(a: Ranges, b: Ranges, max: int) { forall t :: t > max ==> (Has(a, t) <==> Has(b, t)) }

  class ChangesFeed {
    const filters: Filters
    const continuous: bool
    const checkpoint: Checkpoint
    var world: World             // the collection, with the observer's list of changes
    var maxSequence: int
    var caughtUp: bool
    var notifyOnChanges: bool

    ghost const start: int
    ghost const law: Law             // what is to be handed over
    ghost var given: seq<Change>     // all that was handed over
    ghost var owed: bool             // the owner was told to ask for more
    ghost var lost: bool             // a reading of the history broke the promise

    ghost function State(): Scan
      reads this`maxSequence, this`given
    {
      Scan(maxSequence, given)
    }

    ghost function Now(): Feeding
      reads this`world, this`maxSequence, this`given, this`caughtUp, this`lost, checkpoint`completed
    {
      Feeding(world, State(), caughtUp, lost, checkpoint.completed)
    }

    /** While there is something to hand over, the owner has been told, or will be told of the next
        change. */
    ghost predicate Awake()
      reads this
    {
      continuous && world.observing ==> owed || (caughtUp && world.queue == [] && notifyOnChanges)
    }

    /** Beyond a position the checkpoint is as it was when the feed started. */
    ghost predicate Untouched(max: int)
      reads checkpoint`completed
    {
      filters.active ==> Agrees(law.resumed, checkpoint.completed, max)
    }

    ghost predicate Valid()
      reads this, checkpoint
    {
      && law.filters == filters && Holds(world, start, law, State(), caughtUp && continuous, lost) && Awake()
      && checkpoint.Valid() && checkpoint.lastChecked <= maxSequence && Untouched(maxSequence)
    }

    constructor (world: World, start: int, filters: Filters, continuous: bool, checkpoint: Checkpoint)
      requires world.Valid() && !world.observing && 0 <= start
      requires checkpoint.Valid() && checkpoint.lastChecked <= start
      ensures Valid() && this.world == world && this.filters == filters && this.continuous == continuous
      ensures this.checkpoint == checkpoint && this.start == start == maxSequence
      ensures law == Law(filters, checkpoint.completed) && given == [] && !caughtUp && !lost
    {
      this.world, this.filters, this.continuous, this.checkpoint := world, filters, continuous, checkpoint;
      this.start, maxSequence, caughtUp, notifyOnChanges := start, start, false, false;
      law, given, owed, lost := Law(filters, checkpoint.completed), [], true, false;
    }

    /** The database changes; an observer whose list was empty calls `_dbChanged`. */
    method DbChanged(e: DbEvent)
      requires Valid()
      modifies this`world, this`notifyOnChanges, this`owed
      ensures Valid() && world == old(world).Next(e)
    {
      HoldsNext(world, e, start, law, State(), caughtUp && continuous, lost);
      hide Holds;
      Changed(e);
    }

    /** The same, also in the middle of a call: an owner that waits for changes is told of one, once for each
        time the flag is set. */
    method Changed(e: DbEvent)
      modifies this`world, this`notifyOnChanges, this`owed
      ensures world == old(world).Next(e) && (old(Awake()) ==> Awake())
      ensures old(owed || notifyOnChanges) ==> owed || notifyOnChanges
      ensures old(owed) ==> owed
      ensures owed && !old(owed) ==> old(notifyOnChanges) && !notifyOnChanges
      ensures notifyOnChanges ==> old(notifyOnChanges)
    {
      if world.observing && world.queue == [] && notifyOnChanges {
        notifyOnChanges := false;
        owed := true;
      }
      world := world.Next(e);
    }

    /** `makeRevToSend`: whether a document is to be pushed. The position moves first; then a filter may
        throw. */
    method MakeRevToSend(c: Change, throws: bool) returns (ok: bool, threw: bool)
      requires checkpoint.Valid() && law.filters == filters
      requires filters.active ==> (Has(law.resumed, c.sequence) <==> Has(checkpoint.completed, c.sequence))
      modifies this`maxSequence
      ensures maxSequence == c.sequence
      ensures threw <==> throws && !law.Finished(c)
      ensures ok <==> !threw && law.Wanted(c)
    {
      maxSequence := c.sequence;
      var done := checkpoint.IsSequenceCompleted(c.sequence);
      if filters.active && done { return false, false; }
      if throws { return false, true; }
      return filters.pass(c), false;
    }

    /** The by-sequence enumeration. */
    method GetHistoricalChanges(limit: int, failAt: Option<Throw>)
      returns (revs: seq<Change>, askAgain: bool, err: bool, ghost n: nat, ghost threw: bool)
      requires checkpoint.Valid() && limit > 0 && Holds(world, start, law, State(), false, lost)
      requires law.filters == filters && Untouched(maxSequence) && (continuous ==> world.observing)
      modifies this`maxSequence, this`caughtUp, this`given, this`lost
      ensures Handed(old(State()), revs, limit) && Holds(world, start, law, State(), caughtUp && continuous, lost)
      ensures FromHistory(law, continuous, old(Now()), Now(), n, threw, |revs|, limit, failAt, err, askAgain)
    {
      hide Holds, Has, Broken, Between, History, Stopped;
      ghost var s := State();
      var left;
      revs, left, err, n, threw := ReadHistory(limit, failAt);
      if left > 0 && !caughtUp { caughtUp := true; }
      askAgain := !caughtUp || continuous;
      HistoryOutcome(world, start, law, s, State(), n, threw, lost, caughtUp && continuous);
      lost := lost || Broken(world, law, s, n, threw, caughtUp && continuous);
    }

    /** What the enumeration makes of the position and the changes handed over. */
    method ReadHistory(limit: int, failAt: Option<Throw>)
      returns (revs: seq<Change>, left: int, err: bool, ghost n: nat, ghost threw: bool)
      requires checkpoint.Valid() && limit > 0 && Holds(world, start, law, State(), false, lost)
      requires law.filters == filters && Untouched(maxSequence)
      modifies this`maxSequence, this`given
      ensures |revs| + left == limit && left >= 0 && Handed(old(State()), revs, limit)
      ensures History(world.docs, law, old(State()), State(), n, threw)
      ensures Stopped(world.docs, law, old(maxSequence), n, threw, |revs|, limit, failAt, err)
    {
      ghost var s := State();
      DocsOrdered(world, start, law, s, false, lost);
      SinceIsAll(world.docs, maxSequence);
      hide Holds, Since, Offered, Law.Wanted, Law.Finished, Has, Ordered, AllAbove, Agrees, Between, Reached;
      hide Enumerated, History, Stopped;
      var i, t;
      revs, left, err, t, i := Enumerate(Since(world.docs, maxSequence), limit, failAt);
      n, threw, given := i, t, given + revs;
      IsHistory(world.docs, law, s, State(), n, threw, |revs|, limit, failAt, err);
      HistoryBetween(world, start, law, s, State(), n, threw, lost);
    }

    /** What a call hands over lies between its position before and after. */
    ghost predicate Handed(before: Scan, revs: seq<Change>, limit: int)
      reads this`maxSequence, this`given
    {
      given == before.given + revs && |revs| <= limit && Between(revs, before.max, maxSequence)
    }

    /** The loop over the enumerator. */
    method Enumerate(es: seq<Change>, limit: int, failAt: Option<Throw>)
      returns (revs: seq<Change>, left: int, err: bool, threw: bool, i: nat)
      requires checkpoint.Valid() && limit > 0 && law.filters == filters
      requires Untouched(maxSequence) && AllAbove(es, maxSequence)
      modifies this`maxSequence
      ensures i <= |es| && |revs| + left == limit && left >= 0
      ensures threw ==> i < |es| && left > 0 && failAt == Some(InFilter(i)) && !law.Finished(es[i])
      ensures err <==> threw || failAt == Some(InNext(i))
      ensures (!err ==> i == |es| || left == 0) && NotBeyond(law, es, i, failAt)
      ensures maxSequence == Reached(es, if threw then i + 1 else i, old(maxSequence)) && revs == Offered(law, es[..i])
    {
      hide Offered, Law.Wanted, Law.Finished, Has;
      NothingOffered(law, es);
      revs, left, err, threw, i := [], limit, false, false, 0;
      while true
        invariant 0 <= i <= |es| && |revs| + left == limit && left >= 0 && !err && !threw && NotBeyond(law, es, i, failAt)
        invariant maxSequence == Reached(es, i, old(maxSequence)) && revs == Offered(law, es[..i])
        decreases |es| - i
      {
        if failAt == Some(InNext(i)) {
          err := true;
          break;
        }
        if i == |es| || left == 0 { break; }
        assert es[i] in es;
        var ok;
        ok, threw := MakeRevToSend(es[i], failAt == Some(InFilter(i)));
        if threw {
          err := true;
          break;
        }
        OneOffered(law, es, i);
        if ok {
          revs := revs + [es[i]];
          left := left - 1;
        }
        i := i + 1;
      }
    }

    /** Takes some of the observer's changes, at least one if there are any. */
    method ReadObserver(count: int) returns (batch: seq<Change>)
      requires world.Valid() && count > 0
      modifies this`world
      ensures world.Valid() && world == old(world).(queue := world.queue) && old(world).queue == batch + world.queue
      ensures |batch| <= count && (batch == [] ==> world.queue == []) && Distinct(batch)
    {
      var n: int;
      n :| 0 <= n <= count && n <= |world.queue| && (n == 0 ==> world.queue == []);
      batch := world.queue[..n];
      RestValid(world, n);
      world := world.(queue := world.queue[n..]);
    }

    /** Puts `c` at the end of the changes, in place of an older one of the same document that an
        earlier batch brought. */
    static method ReplaceOlder(revs: seq<Change>, left: int, c: Change, oldCount: nat, ghost rest: seq<Change>)
      returns (revs': seq<Change>, left': int)
      requires Ordered(revs) && Distinct(revs) && oldCount <= |revs| && Later(revs, oldCount, [c])
      requires Later(revs, oldCount, rest) && Later([c], 0, rest)
      ensures revs' == Touch(revs, c) && |revs'| + left' == |revs| + left && oldCount <= |revs'|
      ensures Later(revs', oldCount, rest)
    {
      revs', left' := revs, left;
      var j := 0;
      while j < oldCount
        invariant 0 <= j <= oldCount && revs' == revs && left' == left
        invariant forall k :: 0 <= k < j ==> revs[k].docID != c.docID
      {
        if revs[j].docID == c.docID {
          WithoutOne(revs, j, c.docID);
          revs', left' := revs[..j] + revs[j + 1..] + [c], left;
          return;
        }
        j := j + 1;
      }
      WithoutNone(revs, c.docID);
      revs', left' := revs + [c], left - 1;
    }

    /** One turn of the loop over a batch. */
    method ObserveChange(c: Change, floor: int, revs: seq<Change>, left: int, oldCount: nat, ghost rest: seq<Change>)
      returns (revs': seq<Change>, left': int)
      requires checkpoint.Valid() && Ordered(revs) && Distinct(revs) && oldCount <= |revs|
      requires law.filters == filters && Untouched(floor)
      requires Later(revs, oldCount, [c]) && Later(revs, oldCount, rest) && Later([c], 0, rest)
      modifies this`maxSequence
      ensures Call(maxSequence, revs') == old(Call(maxSequence, revs)).Observe(law, floor, c)
      ensures |revs'| + left' == |revs| + left && oldCount <= |revs'| <= |revs| + 1 && Later(revs', oldCount, rest)
    {
      hide Ordered, Distinct, Without, Later, Has;
      revs', left' := revs, left;
      if c.sequence > floor {
        if filters.echo(c) {
          maxSequence := c.sequence;
        } else {
          var ok, _ := MakeRevToSend(c, false);
          if ok { revs', left' := ReplaceOlder(revs, left, c, oldCount, rest); }
        }
      }
    }

    /** The loop over a batch. */
    method ObserveBatch(batch: seq<Change>, floor: int, revs0: seq<Change>, left0: int)
      returns (revs: seq<Change>, left: int)
      requires checkpoint.Valid() && world.Valid() && 0 <= start && law.filters == filters && Untouched(floor)
      requires Distinct(batch) && Ordered(batch + world.queue) && Current(world.docs, batch + world.queue)
      requires Observed(world, batch + world.queue, start, law, floor, given, Call(maxSequence, revs0), lost)
      modifies this`maxSequence
      ensures Observed(world, world.queue, start, law, floor, given, Call(maxSequence, revs), lost)
      ensures Call(maxSequence, revs) == ObserveAll(old(Call(maxSequence, revs0)), law, floor, batch)
      ensures |revs| + left == |revs0| + left0 && |revs| <= |revs0| + |batch|
    {
      ghost var call := Call(maxSequence, revs0);
      revs, left := revs0, left0;
      hide Observed, Ordered, Distinct, Current, World.Valid, Touch, Law.Wanted, Law.Finished, Agrees;
      for i := 0 to |batch|
        invariant Call(maxSequence, revs) == ObserveAll(call, law, floor, batch[..i])
        invariant |revs| + left == |revs0| + left0 && |revs| <= |revs0| + i
        invariant |revs0| <= |revs| && Later(revs, |revs0|, batch[i..])
      {
        ObservedPart(world, batch, i, start, law, floor, given, call, lost);
        ObserveStep(call, law, floor, batch, i);
        RevsAreDistinct(world, batch[i..] + world.queue, start, law, floor, given, Call(maxSequence, revs), lost);
        LaterTail(revs, |revs0|, batch, i);
        revs, left := ObserveChange(batch[i], floor, revs, left, |revs0|, batch[i + 1..]);
      }
      ObservedPart(world, batch, |batch|, start, law, floor, given, call, lost);
      assert batch[..|batch|] == batch && batch[|batch|..] + world.queue == world.queue;
    }

    /** The changes the observer has. `arrivals` are the changes of the database that fall between the
        readings of the observer's list, `takes` how much each reading took. */
    method GetObservedChanges(limit: int, arrivals: seq<seq<DbEvent>>)
      returns (revs: seq<Change>, askAgain: bool, ghost takes: seq<nat>)
      requires checkpoint.Valid() && limit > 0 && caughtUp && continuous && !owed
      requires law.filters == filters && Untouched(maxSequence) && Holds(world, start, law, State(), true, lost)
      modifies this`world, this`maxSequence, this`notifyOnChanges, this`owed, this`given
      ensures Handed(old(State()), revs, limit) && Holds(world, start, law, State(), true, lost)
      ensures FromObserver(law, old(Now()), Now(), takes, revs, limit, arrivals, askAgain)
      ensures askAgain || owed || (world.queue == [] && notifyOnChanges)
    {
      hide Holds, Sound, Agrees, ChangesFeed.Reading, SeenRounds, Between, Distinct;
      ghost var s := State();
      StartReading();
      notifyOnChanges := true;
      var left;
      revs, left, takes := ObserveUntilDone(limit, maxSequence, arrivals, s);
      EndReading(s, revs);
      given := given + revs;
      askAgain := false;
      if |revs| > 0 && left == 0 {
        notifyOnChanges := false;
        askAgain := true;
      }
    }

    lemma StartReading()
      requires Holds(world, start, law, State(), true, lost)
      ensures Reading(maxSequence, []) && Sound(world.log, start, law, State())
    {
      BeginObserving(world, start, law, State(), lost);
    }

    lemma EndReading(s: Scan, revs: seq<Change>)
      requires given == s.given && Reading(s.max, revs) && Sound(world.log, start, law, s)
      ensures Holds(world, start, law, Scan(maxSequence, given + revs), true, lost)
      ensures Between(revs, s.max, maxSequence) && Distinct(revs)
    {
      EndObserving(world, start, law, s, Call(maxSequence, revs), lost);
      hide Holds, Complete, Follows, World.Valid, Sound;
    }

    /** The loop over the readings of the list. */
    method ObserveUntilDone(limit: int, floor: int, arrivals: seq<seq<DbEvent>>, ghost s: Scan)
      returns (revs: seq<Change>, left: int, ghost takes: seq<nat>)
      requires checkpoint.Valid() && limit > 0 && law.filters == filters && Untouched(floor) && maxSequence == floor
      requires Reading(floor, []) && Sound(world.log, start, law, s) && (owed || notifyOnChanges)
      modifies this`world, this`maxSequence, this`notifyOnChanges, this`owed
      ensures Reading(floor, revs) && Sound(world.log, start, law, s) && (owed || notifyOnChanges)
      ensures |revs| + left == limit && left >= 0 && (left > 0 ==> world.queue == [])
      ensures takes != [] && SeenSoFar(old(world), floor, revs, takes, arrivals)
    {
      revs, left, takes := [], limit, [];
      assert ObserveAll(Call(floor, []), law, floor, []) == Call(floor, []);
      assert SeenSoFar(world, floor, revs, takes, arrivals);
      hide Sound, Agrees, ObserveAll, ChangesFeed.Reading, ChangesFeed.SeenSoFar;
      var more, k := true, 0;
      while left > 0 && more
        invariant Sound(world.log, start, law, s) && Reading(floor, revs)
        invariant |revs| + left == limit && left >= 0 && (owed || notifyOnChanges)
        invariant k == |takes| && (!more ==> world.queue == []) && (takes == [] ==> left > 0 && more)
        invariant SeenSoFar(old(world), floor, revs, takes, arrivals)
        decreases Max(|arrivals| - k, 0), |world.queue|, more
      {
        ghost var n;
        more, revs, left, n := Round(k, arrivals, floor, revs, left, s, old(world), takes);
        takes, k := takes + [n], k + 1;
      }
    }

    /** What arrives, and one reading. */
    method Round(k: nat, arrivals: seq<seq<DbEvent>>, floor: int, revs0: seq<Change>, left0: int, ghost s: Scan,
                 ghost w: World, ghost takes: seq<nat>)
      returns (more: bool, revs: seq<Change>, left: int, ghost n: nat)
      requires checkpoint.Valid() && left0 > 0 && law.filters == filters && Untouched(floor)
      requires Reading(floor, revs0) && Sound(world.log, start, law, s) && (owed || notifyOnChanges)
      requires k == |takes| && SeenSoFar(w, floor, revs0, takes, arrivals)
      modifies this`world, this`maxSequence, this`notifyOnChanges, this`owed
      ensures Reading(floor, revs) && Sound(world.log, start, law, s) && (owed || notifyOnChanges)
      ensures |revs| + left == |revs0| + left0 && left >= 0 && SeenSoFar(w, floor, revs, takes + [n], arrivals)
      ensures !more ==> world.queue == []
      ensures k >= |arrivals| && more ==> |world.queue| < |old(world).queue|
    {
      hide Sound, Agrees, ObserveAll, ChangesFeed.Reading, SeenRounds, World.Next;
      ghost var was, max := world, maxSequence;
      Arrive(Arrival(arrivals, k), floor, revs0, s);
      ghost var batch, met := [], world;
      more, revs, left, batch := ObserveSome(floor, revs0, left0);
      n := |batch|;
      SeenMore(law, floor, w, was, met, max, revs0, arrivals, takes, batch, world, maxSequence, revs);
    }

    /** The collection and the list are what the arrivals and the readings have made of them; what was handed
        over and the position follow from what was read. */
    ghost predicate SeenSoFar(w: World, floor: int, revs: seq<Change>, takes: seq<nat>, arrivals: seq<seq<DbEvent>>)
      reads this`world, this`maxSequence
    {
      SeenRounds(law, floor, w, arrivals, takes, world, maxSequence, revs)
    }

    /** One reading of the list. */
    method ObserveSome(floor: int, revs0: seq<Change>, left0: int)
      returns (more: bool, revs: seq<Change>, left: int, ghost batch: seq<Change>)
      requires checkpoint.Valid() && Reading(floor, revs0) && left0 > 0 && law.filters == filters && Untouched(floor)
      modifies this`world, this`maxSequence
      ensures Reading(floor, revs) && world == old(world).(queue := world.queue)
      ensures |revs| + left == |revs0| + left0 && left >= 0
      ensures Call(maxSequence, revs) == ObserveAll(old(Call(maxSequence, revs0)), law, floor, batch)
      ensures old(world).queue == batch + world.queue
      ensures if more then |world.queue| < |old(world).queue| else world.queue == []
    {
      OrderedQueue(world);
      hide Observed, World.Valid, Ordered, Current, Distinct, Agrees;
      var some := ReadObserver(Min(left0, MAX_CHANGES));
      batch := some;
      SameBut(old(world), world, start, law, floor, given, Call(maxSequence, revs0), lost);
      if some == [] {
        assert some + world.queue == world.queue;
        return false, revs0, left0, batch;
      }
      revs, left := ObserveBatch(some, floor, revs0, left0);
      more := true;
    }

    /** What holds in the middle of reading the observer's list. */
    ghost predicate Reading(floor: int, revs: seq<Change>)
      reads this`world, this`maxSequence, this`given, this`lost
    {
      && world.Valid() && world.observing && 0 <= start <= floor
      && Observed(world, world.queue, start, law, floor, given, Call(maxSequence, revs), lost)
    }

    /** Some changes of the database in the middle of that. */
    method Arrive(events: seq<DbEvent>, floor: int, revs: seq<Change>, ghost s: Scan)
      requires Reading(floor, revs) && Sound(world.log, start, law, s) && (owed || notifyOnChanges)
      modifies this`world, this`notifyOnChanges, this`owed
      ensures Reading(floor, revs) && Sound(world.log, start, law, s) && (owed || notifyOnChanges)
      ensures world == old(world).NextAll(events)
    {
      hide Observed, Sound, World.Valid;
      for i := 0 to |events|
        invariant Reading(floor, revs) && Sound(world.log, start, law, s) && (owed || notifyOnChanges)
        invariant world == old(world).NextAll(events[..i])
      {
        assert events[..i + 1][..i] == events[..i];
        world.NextIsValid(events[i]);
        SoundNext(world, events[i], start, law, s);
        ObservedNext(world, events[i], start, law, floor, given, Call(maxSequence, revs), lost);
        Changed(events[i]);
      }
      assert events[..|events|] == events;
    }

    /** `getMoreChanges`: the next changes, and what they mean for the checkpoint. */
    method GetMoreChanges(limit: int, failAt: Option<Throw>, arrivals: seq<seq<DbEvent>>)
      returns (revs: seq<Change>, askAgain: bool, err: bool, ghost how: Extent)
      requires Valid() && limit > 0
      modifies this, checkpoint
      ensures Valid() && Handed(old(State()), revs, limit)
      ensures Noted(old(checkpoint.completed), revs, old(maxSequence))
      ensures checkpoint.completed == Noting(law, old(checkpoint.completed), revs, old(maxSequence), maxSequence)
      ensures Asking(law, continuous, old(Now()), Now(), how, revs, limit, failAt, arrivals, err, askAgain)
    {
      MaxIsNotNegative();
      hide Holds, Asking, Has, Marked, Between, Canonical, Agrees;
      var floor := maxSequence;
      revs, askAgain, err, how := NextChanges(limit, failAt, arrivals);
      if filters.active { NoteChecked(revs, floor); }
    }

    /** In the checkpoint of an active replicator just these are pending in the range looked at. */
    ghost predicate Noted(before: Ranges, revs: seq<Change>, floor: int)
      reads this`maxSequence, checkpoint`completed
    {
      if filters.active then Marked(before, checkpoint.completed, revs, floor, maxSequence)
      else checkpoint.completed == before
    }

    /** The choice between history and observer. */
    method NextChanges(limit: int, failAt: Option<Throw>, arrivals: seq<seq<DbEvent>>)
      returns (revs: seq<Change>, askAgain: bool, err: bool, ghost how: Extent)
      requires Valid() && limit > 0
      modifies this
      ensures Holds(world, start, law, State(), caughtUp && continuous, lost) && Awake()
      ensures Handed(old(State()), revs, limit)
      ensures Asking(law, continuous, old(Now()), Now(), how, revs, limit, failAt, arrivals, err, askAgain)
    {
      hide Holds, Has, Canonical, Agrees, Between, FromObserver, FromHistory, ChangesFeed.Untouched;
      if caughtUp && continuous {
        ghost var takes;
        FollowerObserves(world, start, law, State(), true, lost);
        owed := false;
        revs, askAgain, takes := GetObservedChanges(limit, arrivals);
        err, how := false, Extent(0, false, takes);
        owed := owed || askAgain;
      } else {
        ghost var n, threw;
        revs, askAgain, err, n, threw := WatchAndRead(limit, failAt);
        how := Extent(n, threw, []);
      }
    }

    /** A call that reads the history, with the observer begun before. */
    method WatchAndRead(limit: int, failAt: Option<Throw>)
      returns (revs: seq<Change>, askAgain: bool, err: bool, ghost n: nat, ghost threw: bool)
      requires checkpoint.Valid() && limit > 0 && Holds(world, start, law, State(), false, lost)
      requires law.filters == filters && Untouched(maxSequence)
      modifies this
      ensures Handed(old(State()), revs, limit) && Holds(world, start, law, State(), caughtUp && continuous, lost)
      ensures FromHistory(law, continuous, old(Now()), Now(), n, threw, |revs|, limit, failAt, err, askAgain)
      ensures world == Watched(old(world), continuous) && owed == askAgain && askAgain == (!caughtUp || continuous)
    {
      hide Holds, Has, Canonical, Agrees, ChangesFeed.Handed, History, Stopped, Broken, ChangesFeed.Untouched;
      if continuous && !world.observing { StartObserver(); }
      revs, askAgain, err, n, threw := GetHistoricalChanges(limit, failAt);
      owed := askAgain;
    }

    lemma MaxIsNotNegative()
      requires Valid()
      ensures maxSequence >= 0
    {
    }

    lemma HandedInOrder()
      requires Valid()
      ensures 0 <= maxSequence && Ordered(given) && Has(checkpoint.completed, 0)
    {
      GivenOrdered(world, start, law, State(), caughtUp && continuous, lost);
    }

    /** Tells the checkpoint what was looked at and what of it is to be pushed. */
    method NoteChecked(revs: seq<Change>, floor: int)
      requires checkpoint.Valid() && checkpoint.lastChecked <= floor && 0 <= floor && Between(revs, floor, maxSequence)
      requires Agrees(law.resumed, checkpoint.completed, floor)
      modifies checkpoint
      ensures checkpoint.Valid() && checkpoint.lastChecked <= maxSequence
      ensures Marked(old(checkpoint.completed), checkpoint.completed, revs, floor, maxSequence)
      ensures Agrees(law.resumed, checkpoint.completed, maxSequence)
      ensures filters.active && law.filters == filters ==>
                checkpoint.completed == Noting(law, old(checkpoint.completed), revs, floor, maxSequence)
    {
      hide Has, Canonical;
      if maxSequence >= floor + 1 {
        assert maxSequence >= checkpoint.lastChecked;
        SequencesPositive(revs, floor);
        checkpoint.AddPendingSequences(Sequences(revs), floor + 1, maxSequence);
      } else {
        assert forall i :: 0 <= i < |revs| ==> revs[i] in revs;
      }
      MarkedAgrees(old(checkpoint.completed), checkpoint.completed, revs, floor, maxSequence);
    }

    /** The observer is there before the history is read. */
    method StartObserver()
      requires Holds(world, start, law, State(), false, lost) && !world.observing
      modifies this`world
      ensures world == old(world).Observe() && world.queue == []
      ensures Holds(world, start, law, State(), false, lost)
    {
      hide Law.Eligible, Ordered, Distinct, Law.Wanted;
      world := world.Observe();
    }

    /** Any run: the database changes, the owner asks for changes, and it says which of the sequences it was
        given are pushed or to be pushed again. The feed goes from state to state as each event says, and the
        collection is what all that happened to it has made of it. Only changes that were made and pass are
        handed over, each once and in order; and every eligible document whose sequence has been passed was
        among them, unless a reading of the history broke the promise, which it does not if it does not fail.
        When an answer is shorter than it might be, nothing is left. */
    method Run(events: seq<FeedEvent>)
      returns (answers: seq<seq<Change>>, ghost states: seq<Feeding>, ghost hows: seq<Extent>)
      requires Valid()
      modifies this, checkpoint
      ensures Valid() && Goes(law, continuous, events, answers, states, hows)
      ensures states[0] == old(Now()) && states[|events|] == Now()
      ensures world.SameCollection(old(world).NextAll(Occurred(events, hows)))
      ensures given == old(given) + Flat(answers)
      ensures Sound(world.log, start, law, State())
      ensures !lost ==> Complete(world.docs, start, law, State())
      ensures lost ==> old(lost) || exists i :: 0 <= i < |events| && BreaksAt(law, continuous, events, states, hows, i)
      ensures NoneFails(events) ==> lost == old(lost)
      ensures events != [] && events[|events| - 1].Exhausts(answers[|events| - 1]) && !lost ==>
                NothingLeft(world.docs, start, law, given)
    {
      hide Sound, Complete, Follows, World.Valid, World.Whole, Has, Canonical, Between, Marked, Agrees, NothingLeft;
      hide Goes, StepOf;
      answers, states, hows := [], [Now()], [];
      NothingDone(law, continuous, Now());
      for i := 0 to |events|
        invariant Valid() && Goes(law, continuous, events[..i], answers, states, hows)
        invariant |answers| == |hows| == i && |states| == i + 1 && states[0] == old(Now()) && states[i] == Now()
        invariant NoneFails(events) ==> lost == old(lost)
        invariant i > 0 && events[i - 1].Exhausts(answers[i - 1]) && !lost ==>
                    NothingLeft(world.docs, start, law, given)
      {
        var revs;
        ghost var how;
        revs, how := Step(events[i]);
        GoesOn(law, continuous, events, i, answers, states, hows, revs, Now(), how);
        answers, states, hows := answers + [revs], states + [Now()], hows + [how];
      }
      assert events[..|events|] == events;
      CollectionAfter(law, continuous, events, answers, states, hows);
      GivenAfter(law, continuous, events, answers, states, hows);
      if lost && !old(lost) { var _ := LostBecause(law, continuous, events, answers, states, hows); }
    }

    method Step(e: FeedEvent) returns (revs: seq<Change>, ghost how: Extent)
      requires Valid()
      modifies this, checkpoint
      ensures Valid() && StepOf(law, continuous, old(Now()), e, how, revs, Now())
      ensures (e.Asked? ==> e.failAt.None?) ==> lost == old(lost)
      ensures e.Exhausts(revs) && !lost ==> NothingLeft(world.docs, start, law, given)
    {
      hide Has, Canonical, Holds, NothingLeft, Asking;
      revs, how := [], Extent(0, false, []);
      match e {
        case Happened(change) => DbChanged(change);
        case Asked(limit, failAt, arrivals) =>
          if limit > 0 {
            var err;
            revs, err, how := Ask(limit, failAt, arrivals);
          }
        case Pushed(s) => if 0 < s <= maxSequence { checkpoint.CompletedSequence(s); }
        case ToPush(s) => if 0 < s <= maxSequence { checkpoint.AddPendingSequence(s); }
      }
    }

    method Ask(limit: int, failAt: Option<Throw>, arrivals: seq<seq<DbEvent>>)
      returns (revs: seq<Change>, err: bool, ghost how: Extent)
      requires Valid() && limit > 0
      modifies this, checkpoint
      ensures Valid() && Asked(limit, failAt, arrivals).Answered(law, continuous, old(Now()), how, revs, Now())
      ensures Handed(old(State()), revs, limit) && err == Failed(how, failAt, old(caughtUp) && continuous)
      ensures failAt.None? ==> lost == old(lost)
      ensures failAt.None? && |revs| < limit && !lost ==> NothingLeft(world.docs, start, law, given)
    {
      hide Holds, Has, Canonical, Between, Marked, Agrees, Breaks, ObserveAll, Distinct, NothingLeft, Enumerated;
      hide AfterRounds, SeenIn;
      ghost var s, w := State(), world;
      WorldIsValid(world, start, law, s, caughtUp && continuous, lost);
      var askAgain;
      revs, askAgain, err, how := GetMoreChanges(limit, failAt, arrivals);
      WorldIsValid(world, start, law, State(), caughtUp && continuous, lost);
      if failAt.None? && !(old(caughtUp) && continuous) {
        NoFailureKeeps(Watched(w, continuous), law, s, how.n, how.threw, |revs|, limit,
                       err, caughtUp && continuous);
      }
      if failAt.None? && |revs| < limit && !lost {
        HoldsComplete(world, start, law, State(), caughtUp && continuous);
        if old(caughtUp) && continuous {
          ListRead(world.docs, start, law, State());
        } else {
          HistoryRead(world, start, law, s, how.n);
        }
      }
    }

    /** An active push from the checkpoint's local minimum: calls with any limits until the feed has caught up
        with a collection that does not change. The documents offered are exactly those that pass and are not
        completed in the checkpoint, and afterwards they are what is pending in the range that was checked. */
    method OfferAll()
      requires Valid() && filters.active && !caughtUp && given == [] && maxSequence == start
      requires checkpoint.completed != [] && start == LocalMin(checkpoint.completed)
      modifies this, checkpoint
      ensures Valid() && caughtUp && world.docs == old(world).docs && Ordered(given)
      ensures Resumed(world.docs, filters, old(checkpoint.completed), checkpoint.completed, given, maxSequence)
    {
      ghost var docs, completed, n: nat := world.docs, checkpoint.completed, 0;
      DocsOrdered(world, start, law, State(), caughtUp && continuous, lost);
      BeneathLocalMin(completed);
      NoProgress(docs, law, completed, start, State());
      hide Holds, Progress, Resumed, Since, Has, Ordered, Canonical, AllAbove, Beneath, LocalMin, Agrees;
      ghost var agrees := Agrees(law.resumed, completed, start);
      assert agrees && Pushing(docs, completed, n);
      n := OfferUntilDone(docs, completed);
      AllOffered(docs, law, completed, checkpoint.completed, start, State());
      GivenOrdered(world, start, law, State(), caughtUp && continuous, lost);
    }

    /** What holds between the calls of such a push: `n` documents have been looked at. */
    ghost predicate Pushing(docs: seq<Change>, completed: Ranges, n: nat)
      reads this, checkpoint
    {
      && Valid() && filters.active && world.docs == docs
      && Ordered(docs) && AllAbove(docs, 0) && 0 <= start
      && Progress(docs, law, completed, checkpoint.completed, start, n, State())
      && n <= |Since(docs, start)| && (caughtUp ==> n == |Since(docs, start)|)
    }

    method OfferUntilDone(ghost docs: seq<Change>, ghost completed: Ranges) returns (ghost n: nat)
      requires Pushing(docs, completed, 0)
      modifies this, checkpoint
      ensures Pushing(docs, completed, n) && caughtUp
    {
      hide ChangesFeed.Pushing;
      n := 0;
      while !caughtUp
        invariant Pushing(docs, completed, n)
        decreases |Since(docs, start)| - n, !caughtUp
      {
        ghost var m := OfferMore(docs, completed, n);
        n := n + m;
      }
    }

    /** One call of such a push. */
    method OfferMore(ghost docs: seq<Change>, ghost completed: Ranges, ghost n: nat) returns (ghost m: nat)
      requires Pushing(docs, completed, n) && !caughtUp
      modifies this, checkpoint
      ensures Pushing(docs, completed, n + m) && n + m <= |Since(docs, start)| && (!caughtUp ==> m > 0)
    {
      hide Holds, Progress, Since, Has, Ordered, Canonical, Marked, Between, AllAbove, Agrees, Broken;
      var limit: int;
      limit :| limit > 0;
      ghost var before, done, how := State(), checkpoint.completed, Extent(0, false, []);
      var revs, askAgain, err;
      revs, askAgain, err, how := GetMoreChanges(limit, None, []);
      m := how.n;
      MoreProgress(docs, law, completed, done, checkpoint.completed, start, n, before, State(), m, revs, limit, err);
    }
  }

  /** How far a call came: the steps of the enumerator and whether a filter threw, or how much each reading took
      of the observer's list. */
  datatype Extent = Extent(n: nat, threw: bool, takes: seq<nat>)

  /** Whether the call ended with an error, which only a reading of the history does. */
  predicate Failed(how: Extent, failAt: Option<Throw>, watching: bool)
  {
    !watching && (how.threw || failAt == Some(InNext(how.n)))
  }

  /** What a feed has to go on with between calls. */
  datatype Feeding = Feeding(world: World, scan: Scan, caughtUp: bool, lost: bool, completed: Ranges)

  datatype FeedEvent =
    | Happened(e: DbEvent)
    | Asked(limit: int, failAt: Option<Throw>, arrivals: seq<seq<DbEvent>>)
    | Pushed(s: int)
    | ToPush(s: int)
  {
    /** Asked for more than was there. */
    predicate Exhausts(revs: seq<Change>) { Asked? && failAt.None? && |revs| < limit }

    ghost predicate Answered(f: Law, continuous: bool, s: Feeding, how: Extent, revs: seq<Change>, s': Feeding)
      requires Asked?
    {
      var watching := s.caughtUp && continuous;
      && s'.completed == Noting(f, s.completed, revs, s.scan.max, s'.scan.max)
      && Asking(f, continuous, s, s', how, revs, limit, failAt, arrivals, Failed(how, failAt, watching),
                if watching then |revs| == limit else !s'.caughtUp || continuous)
    }

    /** The changes of the database that happen with it. */
    function Occurs(how: Extent): seq<DbEvent>
    {
      if Happened? then [e] else if Asked? then Arrived(arrivals, |how.takes|) else []
    }
  }

  // ---- What arrives between the readings of the observer's list

  /** The first `n` of the arrivals, in one. */
  function Arrived(arrivals: seq<seq<DbEvent>>, n: nat): seq<DbEvent>
  {
    if n == 0 then [] else Arrived(arrivals, n - 1) + Arrival(arrivals, n - 1)
  }

  function Arrival(arrivals: seq<seq<DbEvent>>, i: nat): seq<DbEvent> { if i < |arrivals| then arrivals[i] else [] }

  /** The world after some readings, each with what arrives before it. */
  function AfterRounds(w: World, arrivals: seq<seq<DbEvent>>, takes: seq<nat>): World
  {
    if takes == [] then w
    else
      var k := |takes| - 1;
      AfterRounds(w, arrivals, takes[..k]).NextAll(Arrival(arrivals, k)).Drop(takes[k])
  }

  /** What these readings brought. */
  function SeenIn(w: World, arrivals: seq<seq<DbEvent>>, takes: seq<nat>): seq<Change>
  {
    if takes == [] then []
    else
      var k := |takes| - 1;
      SeenIn(w, arrivals, takes[..k])
      + AfterRounds(w, arrivals, takes[..k]).NextAll(Arrival(arrivals, k)).FirstOf(takes[k])
  }

  ghost predicate SeenRounds(f: Law, floor: int, w: World, arrivals: seq<seq<DbEvent>>, takes: seq<nat>, w': World,
                             max: int, revs: seq<Change>)
  {
    && w' == AfterRounds(w, arrivals, takes)
    && Call(max, revs) == ObserveAll(Call(floor, []), f, floor, SeenIn(w, arrivals, takes))
  }

  /** One more reading. */
  lemma SeenMore(f: Law, floor: int, w: World, was: World, met: World, max: int, revs: seq<Change>,
                 arrivals: seq<seq<DbEvent>>, takes: seq<nat>, batch: seq<Change>, w': World, max': int,
                 revs': seq<Change>)
    requires SeenRounds(f, floor, w, arrivals, takes, was, max, revs)
    requires met == was.NextAll(Arrival(arrivals, |takes|)) && w' == met.(queue := w'.queue)
    requires met.queue == batch + w'.queue && Call(max', revs') == ObserveAll(Call(max, revs), f, floor, batch)
    ensures SeenRounds(f, floor, w, arrivals, takes + [|batch|], w', max', revs')
  {
    var more := takes + [|batch|];
    assert more[..|takes|] == takes;
    assert met.queue[..|batch|] == batch && met.queue[|batch|..] == w'.queue;
    hide ObserveAll, AfterRounds, SeenIn;
    RoundsMore(w, arrivals, takes, |batch|);
    ObservedJoin(Call(floor, []), f, floor, SeenIn(w, arrivals, takes), batch);
  }

  lemma RoundsMore(w: World, arrivals: seq<seq<DbEvent>>, takes: seq<nat>, n: nat)
    ensures var met := AfterRounds(w, arrivals, takes).NextAll(Arrival(arrivals, |takes|));
            && AfterRounds(w, arrivals, takes + [n]) == met.Drop(n)
            && SeenIn(w, arrivals, takes + [n]) == SeenIn(w, arrivals, takes) + met.FirstOf(n)
  {
    assert (takes + [n])[..|takes|] == takes;
  }

  /** Reading the list leaves the collection to the arrivals. */
  lemma {:induction false} RoundsCollection(w: World, arrivals: seq<seq<DbEvent>>, takes: seq<nat>)
    ensures AfterRounds(w, arrivals, takes).SameCollection(w.NextAll(Arrived(arrivals, |takes|)))
  {
    if takes != [] {
      var k := |takes| - 1;
      RoundsCollection(w, arrivals, takes[..k]);
      var a, b := Arrived(arrivals, k), Arrival(arrivals, k);
      AfterRounds(w, arrivals, takes[..k]).SameAfterAll(w.NextAll(a), b);
      w.NextAllJoins(a, b);
    }
  }

  /** If nothing arrives, what was read is just what is gone from the list. */
  lemma {:induction false} RoundsAlone(w: World, takes: seq<nat>)
    ensures var w' := AfterRounds(w, [], takes);
            w' == w.(queue := w'.queue) && w.queue == SeenIn(w, [], takes) + w'.queue
  {
    if takes != [] {
      var k := |takes| - 1;
      RoundsAlone(w, takes[..k]);
      var v := AfterRounds(w, [], takes[..k]);
      assert v.queue == v.FirstOf(takes[k]) + v.Drop(takes[k]).queue;
      Regroup(SeenIn(w, [], takes[..k]), v.FirstOf(takes[k]), v.Drop(takes[k]).queue);
    }
  }

  // ---- What a call comes to

  /** A reading of the history. */
  ghost predicate FromHistory(f: Law, continuous: bool, s: Feeding, s': Feeding, n: nat, threw: bool, count: int,
                              limit: int, failAt: Option<Throw>, err: bool, askAgain: bool)
  {
    && s'.world == Watched(s.world, continuous)
    && History(s'.world.docs, f, s.scan, s'.scan, n, threw)
    && Stopped(s'.world.docs, f, s.scan.max, n, threw, count, limit, failAt, err)
    && s'.caughtUp == (s.caughtUp || count < limit) && askAgain == (!s'.caughtUp || continuous)
    && s'.lost == (s.lost || Broken(s'.world, f, s.scan, n, threw, s'.caughtUp && continuous))
  }

  /** Readings of the observer's list. */
  ghost predicate FromObserver(f: Law, s: Feeding, s': Feeding, takes: seq<nat>, revs: seq<Change>, limit: int,
                               arrivals: seq<seq<DbEvent>>, askAgain: bool)
  {
    && takes != [] && SeenRounds(f, s.scan.max, s.world, arrivals, takes, s'.world, s'.scan.max, revs)
    && Distinct(revs) && s'.caughtUp && s'.lost == s.lost && (askAgain <==> |revs| == limit)
    && (|revs| < limit ==> s'.world.queue == [])
  }

  /** The one or the other. */
  ghost predicate Asking(f: Law, continuous: bool, s: Feeding, s': Feeding, how: Extent, revs: seq<Change>, limit: int,
                         failAt: Option<Throw>, arrivals: seq<seq<DbEvent>>, err: bool, askAgain: bool)
  {
    && s'.scan.given == s.scan.given + revs && |revs| <= limit
    && if s.caughtUp && continuous
       then !err && FromObserver(f, s, s', how.takes, revs, limit, arrivals, askAgain)
       else how.takes == [] && FromHistory(f, continuous, s, s', how.n, how.threw, |revs|, limit, failAt, err, askAgain)
  }

  /** One event of a run. */
  ghost predicate StepOf(f: Law, continuous: bool, s: Feeding, e: FeedEvent, how: Extent, revs: seq<Change>,
                         s': Feeding)
  {
    if e.Asked? && e.limit > 0 then e.Answered(f, continuous, s, how, revs, s')
    else
      && revs == [] && how.takes == []
      && s' == if e.Happened? then s.(world := s.world.Next(e.e))
               else if e.Pushed? && 0 < e.s <= s.scan.max then s.(completed := Apply(s.completed, Done(e.s)))
               else if e.ToPush? && 0 < e.s <= s.scan.max then s.(completed := Apply(s.completed, Pending(e.s)))
               else s
  }

  /** What an active replicator's checkpoint holds after these changes were found between two positions. */
  function Noting(f: Law, completed: Ranges, revs: seq<Change>, floor: int, max: int): Ranges
  {
    if f.filters.active && max > floor then Apply(completed, Checked(floor + 1, max, Sequences(revs))) else completed
  }

  /** A run from state to state. */
  ghost predicate Goes(f: Law, continuous: bool, events: seq<FeedEvent>, answers: seq<seq<Change>>,
                       states: seq<Feeding>, hows: seq<Extent>)
  {
    && |answers| == |hows| == |events| && |states| == |events| + 1
    && forall i :: 0 <= i < |events| ==> StepOf(f, continuous, states[i], events[i], hows[i], answers[i], states[i + 1])
  }

  lemma NothingDone(f: Law, continuous: bool, s: Feeding)
    ensures Goes(f, continuous, [], [], [s], [])
  {
  }

  lemma GoesOn(f: Law, continuous: bool, events: seq<FeedEvent>, k: nat, answers: seq<seq<Change>>,
               states: seq<Feeding>, hows: seq<Extent>, revs: seq<Change>, s': Feeding, how: Extent)
    requires k < |events| && Goes(f, continuous, events[..k], answers, states, hows)
    requires StepOf(f, continuous, states[k], events[k], how, revs, s')
    ensures Goes(f, continuous, events[..k + 1], answers + [revs], states + [s'], hows + [how])
  {
    hide StepOf;
    var es, ss := events[..k + 1], states + [s'];
    forall i | 0 <= i < |es|
      ensures StepOf(f, continuous, ss[i], es[i], (hows + [how])[i], (answers + [revs])[i], ss[i + 1])
    {
      if i < k {
        assert StepOf(f, continuous, states[i], events[..k][i], hows[i], answers[i], states[i + 1]);
      }
    }
  }

  /** All that happens to the collection in a run. */
  function Occurred(events: seq<FeedEvent>, hows: seq<Extent>): seq<DbEvent>
    requires |hows| == |events|
  {
    if events == [] then []
    else
      var k := |events| - 1;
      Occurred(events[..k], hows[..k]) + events[k].Occurs(hows[k])
  }

  lemma {:induction false} CollectionAfter(f: Law, continuous: bool, events: seq<FeedEvent>,
                                           answers: seq<seq<Change>>, states: seq<Feeding>, hows: seq<Extent>)
    requires Goes(f, continuous, events, answers, states, hows)
    ensures states[|events|].world.SameCollection(states[0].world.NextAll(Occurred(events, hows)))
  {
    if events != [] {
      var k := |events| - 1;
      GoesFront(f, continuous, events, answers, states, hows);
      CollectionAfter(f, continuous, events[..k], answers[..k], states[..k + 1], hows[..k]);
      var w, a, b := states[0].world, Occurred(events[..k], hows[..k]), events[k].Occurs(hows[k]);
      StepCollection(f, continuous, states[k], events[k], hows[k], answers[k], states[k + 1]);
      hide StepOf, FeedEvent.Occurs;
      states[k].world.SameAfterAll(w.NextAll(a), b);
      w.NextAllJoins(a, b);
    }
  }

  lemma GoesFront(f: Law, continuous: bool, events: seq<FeedEvent>, answers: seq<seq<Change>>, states: seq<Feeding>,
                  hows: seq<Extent>)
    requires events != [] && Goes(f, continuous, events, answers, states, hows)
    ensures var k := |events| - 1;
            && Goes(f, continuous, events[..k], answers[..k], states[..k + 1], hows[..k])
            && StepOf(f, continuous, states[k], events[k], hows[k], answers[k], states[k + 1])
  {
    hide StepOf;
    var k := |events| - 1;
    assert StepOf(f, continuous, states[k], events[k], hows[k], answers[k], states[k + 1]);
    forall i | 0 <= i < k
      ensures StepOf(f, continuous, states[..k + 1][i], events[..k][i], hows[..k][i], answers[..k][i],
                     states[..k + 1][i + 1])
    {
      assert StepOf(f, continuous, states[i], events[i], hows[i], answers[i], states[i + 1]);
    }
  }

  lemma StepCollection(f: Law, continuous: bool, s: Feeding, e: FeedEvent, how: Extent, revs: seq<Change>, s': Feeding)
    requires StepOf(f, continuous, s, e, how, revs, s')
    ensures s'.world.SameCollection(s.world.NextAll(e.Occurs(how)))
  {
    hide ObserveAll, History, Stopped, Broken, Distinct, AfterRounds, SeenIn, World.Next;
    if e.Asked? && e.limit > 0 {
      RoundsCollection(s.world, e.arrivals, how.takes);
      assert how.takes == [] ==> Arrived(e.arrivals, |how.takes|) == [];
    } else if e.Happened? {
      assert [e.e][..0] == [];
    }
  }

  lemma StepGives(f: Law, continuous: bool, s: Feeding, e: FeedEvent, how: Extent, revs: seq<Change>, s': Feeding)
    requires StepOf(f, continuous, s, e, how, revs, s')
    ensures s'.scan.given == s.scan.given + revs
  {
    hide FromHistory, FromObserver, Noting, Apply;
    assert s.scan.given + [] == s.scan.given;
  }

  lemma {:induction false} GivenAfter(f: Law, continuous: bool, events: seq<FeedEvent>, answers: seq<seq<Change>>,
                                      states: seq<Feeding>, hows: seq<Extent>)
    requires Goes(f, continuous, events, answers, states, hows)
    ensures states[|events|].scan.given == states[0].scan.given + Flat(answers)
  {
    if events != [] {
      var k := |events| - 1;
      GoesFront(f, continuous, events, answers, states, hows);
      GivenAfter(f, continuous, events[..k], answers[..k], states[..k + 1], hows[..k]);
      StepGives(f, continuous, states[k], events[k], hows[k], answers[k], states[k + 1]);
      hide Goes, StepOf;
      Regroup(states[0].scan.given, Flat(answers[..k]), answers[k]);
    }
  }

  /** The `i`th event is a reading of the history that broke the promise. */
  ghost predicate BreaksAt(f: Law, continuous: bool, events: seq<FeedEvent>, states: seq<Feeding>, hows: seq<Extent>,
                           i: nat)
    requires i < |events| && |hows| == |events| && |states| == |events| + 1
  {
    && events[i].Asked? && !(states[i].caughtUp && continuous)
    && Broken(states[i + 1].world, f, states[i].scan, hows[i].n, hows[i].threw, states[i + 1].caughtUp && continuous)
  }

  lemma {:induction false} LostBecause(f: Law, continuous: bool, events: seq<FeedEvent>, answers: seq<seq<Change>>,
                                       states: seq<Feeding>, hows: seq<Extent>)
    returns (i: nat)
    requires Goes(f, continuous, events, answers, states, hows) && states[|events|].lost && !states[0].lost
    ensures i < |events| && BreaksAt(f, continuous, events, states, hows, i)
  {
    hide Broken, SeenRounds, History, Stopped;
    var k := |events| - 1;
    GoesFront(f, continuous, events, answers, states, hows);
    if states[k].lost {
      i := LostBecause(f, continuous, events[..k], answers[..k], states[..k + 1], hows[..k]);
    } else {
      i := k;
    }
  }

  function Flat(answers: seq<seq<Change>>): seq<Change>
  {
    if answers == [] then [] else Flat(answers[..|answers| - 1]) + answers[|answers| - 1]
  }

  lemma HoldsComplete(w: World, start: int, f: Law, s: Scan, following: bool)
    requires Holds(w, start, f, s, following, false)
    ensures Complete(w.docs, start, f, s) && (following ==> Follows(w.docs, w.queue, f, s.max))
  {
  }

  ghost predicate NoneFails(events: seq<FeedEvent>)
  {
    forall i :: 0 <= i < |events| && events[i].Asked? ==> events[i].failAt.None?
  }

  /** A continuous feed has an observer before it reads the history. */
  function Watched(w: World, continuous: bool): World { if continuous && !w.observing then w.Observe() else w }

  /** A reading of the history that made `n` steps. */
  ghost predicate History(docs: seq<Change>, f: Law, before: Scan, after: Scan, n: nat, threw: bool)
  {
    && n <= |Since(docs, before.max)| && (threw ==> n < |Since(docs, before.max)|)
    && after == Enumerated(docs, f, before, n, threw)
  }

  /** It did not go on after it failed. */
  ghost predicate NotBeyond(f: Law, es: seq<Change>, n: nat, failAt: Option<Throw>)
  {
    match failAt
    case None => true
    case Some(InNext(k)) => n <= k
    case Some(InFilter(k)) => n <= k || (k < |es| && f.Finished(es[k]))
  }

  /** It stopped because it failed, or else because the limit or the end was reached. */
  ghost predicate Stopped(docs: seq<Change>, f: Law, max: int, n: nat, threw: bool, count: int, limit: int,
                          failAt: Option<Throw>, err: bool)
  {
    && (err <==> threw || failAt == Some(InNext(n))) && (threw ==> failAt == Some(InFilter(n)))
    && (!err ==> n == |Since(docs, max)| || count == limit) && NotBeyond(f, Since(docs, max), n, failAt)
  }

  /** It broke the promise of the feed. */
  ghost predicate Broken(w: World, f: Law, before: Scan, n: nat, threw: bool, following: bool)
  {
    && n <= |Since(w.docs, before.max)| && (threw ==> n < |Since(w.docs, before.max)|)
    && Breaks(w, f, before, n, threw, following)
  }

  lemma IsHistory(docs: seq<Change>, f: Law, s: Scan, s': Scan, n: nat, threw: bool, count: int, limit: int,
                  failAt: Option<Throw>, err: bool)
    requires n <= |Since(docs, s.max)| && count <= limit
    requires threw ==> n < |Since(docs, s.max)| && failAt == Some(InFilter(n))
    requires s'.max == Reached(Since(docs, s.max), if threw then n + 1 else n, s.max)
    requires s'.given == s.given + Offered(f, Since(docs, s.max)[..n])
    requires (err <==> threw || failAt == Some(InNext(n))) && (!err ==> n == |Since(docs, s.max)| || count == limit)
    requires NotBeyond(f, Since(docs, s.max), n, failAt)
    ensures History(docs, f, s, s', n, threw) && Stopped(docs, f, s.max, n, threw, count, limit, failAt, err)
    ensures s' == Enumerated(docs, f, s, n, threw)
  {
    hide Since, Offered, Reached;
  }

  lemma HistoryOutcome(w: World, start: int, f: Law, s: Scan, s': Scan, n: nat, threw: bool, lost: bool, following: bool)
    requires History(w.docs, f, s, s', n, threw)
    requires Holds(w, start, f, s, false, lost) && (following ==> w.observing)
    ensures Holds(w, start, f, s', following, lost || Broken(w, f, s, n, threw, following))
    ensures !lost ==> (Holds(w, start, f, s', following, false) <==> !Broken(w, f, s, n, threw, following))
  {
    hide Holds, Since, Enumerated, Offered, Breaks;
    EnumeratedHolds(w, start, f, s, n, threw, lost, following);
  }

  lemma HistoryBetween(w: World, start: int, f: Law, s: Scan, s': Scan, n: nat, threw: bool, lost: bool)
    requires History(w.docs, f, s, s', n, threw) && Holds(w, start, f, s, false, lost)
    ensures Between(Offered(f, Since(w.docs, s.max)[..n]), s.max, s'.max)
  {
    HoldsSound(w, start, f, s, false, lost);
    EnumeratedSound(w, start, f, s, n, threw);
    hide Holds, Since, Offered, Between;
  }

  lemma FollowerObserves(w: World, start: int, f: Law, s: Scan, following: bool, lost: bool)
    requires Holds(w, start, f, s, following, lost)
    ensures following ==> w.observing
  {
  }

  lemma WorldIsValid(w: World, start: int, f: Law, s: Scan, following: bool, lost: bool)
    requires Holds(w, start, f, s, following, lost)
    ensures w.Valid() && w.Observe().Valid()
  {
  }

  /** A reading that does not fail breaks nothing. */
  lemma NoFailureKeeps(w: World, f: Law, s: Scan, n: nat, threw: bool, count: int, limit: int, err: bool, following: bool)
    requires w.Valid() && Stopped(w.docs, f, s.max, n, threw, count, limit, None, err)
    requires following ==> count < limit
    ensures !Broken(w, f, s, n, threw, following)
  {
    hide Since;
    if n <= |Since(w.docs, s.max)| && !threw { WholeReadingKeeps(w, f, s, n, following); }
  }

  lemma HoldsSound(w: World, start: int, f: Law, s: Scan, following: bool, lost: bool)
    requires Holds(w, start, f, s, following, lost)
    ensures w.Valid() && 0 <= start <= s.max && Placed(w.last, start, s.max) && Sound(w.log, start, f, s)
  {
  }

  lemma MarkedAgrees(before: Ranges, after: Ranges, revs: seq<Change>, floor: int, max: int)
    requires Marked(before, after, revs, floor, max) && AtMost(revs, max) && floor <= max
    ensures Agrees(before, after, max)
  {
    hide Has;
    forall t | t > max ensures Has(before, t) <==> Has(after, t) { SequencesOf(revs, t); }
  }

  /** A push that began with these completed sequences has offered exactly the documents that pass and
      whose sequence is not among them; it has looked at all documents; and what is not completed now,
      in the range that was checked, is exactly what was offered. */
  ghost predicate Resumed(docs: seq<Change>, f: Filters, completed: Ranges, marked: Ranges, given: seq<Change>, max: int)
  {
    && (forall c :: c in given <==> c in docs && f.pass(c) && !Has(completed, c.sequence))
    && (forall c :: c in docs ==> c.sequence <= max)
    && (forall t :: 0 <= t <= max ==> (!Has(marked, t) <==> t in Sequences(given)))
  }

  /** How far such a push has come: `n` documents have been looked at. */
  ghost predicate Progress(docs: seq<Change>, f: Law, completed: Ranges, marked: Ranges, start: int, n: nat, s: Scan)
  {
    && n <= |Since(docs, start)| && s.max == Reached(Since(docs, start), n, start)
    && s.given == Offered(f, Since(docs, start)[..n])
    && Marked(completed, marked, s.given, start, s.max)
  }

  lemma DocsOrdered(w: World, start: int, f: Law, s: Scan, following: bool, lost: bool)
    requires Holds(w, start, f, s, following, lost)
    ensures Ordered(w.docs) && AllAbove(w.docs, 0) && 0 <= start
  {
  }

  lemma GivenOrdered(w: World, start: int, f: Law, s: Scan, following: bool, lost: bool)
    requires Holds(w, start, f, s, following, lost)
    ensures Ordered(s.given)
  {
  }

  /** Everything up to `m` is completed. */
  ghost predicate Beneath(completed: Ranges, m: int) { forall t :: 0 <= t <= m ==> Has(completed, t) }

  lemma BeneathLocalMin(completed: Ranges)
    requires Canonical(completed) && Has(completed, 0)
    ensures completed != [] && Beneath(completed, LocalMin(completed))
  {
    hide Has, Canonical;
    LocalMinIsExact(completed);
  }

  lemma NoProgress(docs: seq<Change>, f: Law, completed: Ranges, start: int, s: Scan)
    requires s.max == start && s.given == []
    ensures Progress(docs, f, completed, completed, start, 0, s)
  {
  }

  /** A further call looks at more documents; one that finds fewer than it may has looked at all. */
  lemma MoreProgress(docs: seq<Change>, f: Law, completed: Ranges, marked: Ranges, marked': Ranges, start: int,
                     n: nat, s: Scan, s': Scan, m: nat, revs: seq<Change>, limit: int, err: bool)
    requires Ordered(docs) && AllAbove(docs, 0) && 0 <= start && limit > 0
    requires Progress(docs, f, completed, marked, start, n, s) && History(docs, f, s, s', m, false)
    requires Marked(marked, marked', revs, s.max, s'.max) && s'.given == s.given + revs && Between(revs, s.max, s'.max)
    requires Stopped(docs, f, s.max, m, false, |revs|, limit, None, err) && |revs| <= limit
    ensures Progress(docs, f, completed, marked', start, n + m, s') && n + m <= |Since(docs, start)|
    ensures |revs| < limit ==> n + m == |Since(docs, start)|
    ensures |revs| == limit ==> m > 0
  {
    var es := Since(docs, start);
    SinceReached(docs, start, n);
    SinceIsAll(docs, start);
    assert Since(docs, s.max) == es[n..];
    OfferedOrdered(f, es, start, n);
    hide Since, Offered, Has, Ordered;
    OfferedJoin(f, es, n, m, start);
    MarkedTwice(completed, marked, marked', s.given, revs, start, s.max, s'.max);
  }

  lemma SequencesOf(cs: seq<Change>, t: int)
    ensures t in Sequences(cs) <==> exists c :: c in cs && c.sequence == t
  {
    if t in Sequences(cs) {
      var i :| 0 <= i < |cs| && Sequences(cs)[i] == t;
      assert cs[i] in cs;
    }
    if c :| c in cs && c.sequence == t {
      var i :| 0 <= i < |cs| && cs[i] == c;
      assert Sequences(cs)[i] == t;
    }
  }

  lemma {:induction false} OfferedJoin(f: Law, es: seq<Change>, n: nat, m: nat, max: int)
    requires n + m <= |es|
    ensures Offered(f, es[..n]) + Offered(f, es[n..][..m]) == Offered(f, es[..n + m])
    ensures Reached(es[n..], m, Reached(es, n, max)) == Reached(es, n + m, max)
  {
    hide Offered, Law.Wanted;
    if m == 0 {
      NothingOffered(f, es[n..]);
      assert Offered(f, es[..n]) + [] == Offered(f, es[..n]);
    } else {
      OfferedJoin(f, es, n, m - 1, max);
      OneOffered(f, es, n + m - 1);
      OneOffered(f, es[n..], m - 1);
      assert es[n..][m - 1] == es[n + m - 1];
      var w := if f.Wanted(es[n + m - 1]) then [es[n + m - 1]] else [];
      Regroup(Offered(f, es[..n]), Offered(f, es[n..][..m - 1]), w);
    }
  }

  lemma Regroup(a: seq<Change>, b: seq<Change>, c: seq<Change>)
    ensures a + (b + c) == a + b + c
  {
  }

  lemma MarkedTwice(a: Ranges, b: Ranges, c: Ranges, given: seq<Change>, revs: seq<Change>, start: int, mid: int, max: int)
    requires Marked(a, b, given, start, mid) && Marked(b, c, revs, mid, max) && start <= mid
    requires AtMost(given, mid) && Between(revs, mid, max)
    ensures Marked(a, c, given + revs, start, max)
  {
    forall t ensures Has(c, t) <==> t !in Sequences(given + revs) && (start < t <= max || Has(a, t)) {
      SequencesOf(given, t);
      SequencesOf(revs, t);
      SequencesOf(given + revs, t);
    }
  }

  /** The end of a push that began at the local minimum. */
  lemma AllOffered(docs: seq<Change>, f: Law, completed: Ranges, marked: Ranges, start: int, s: Scan)
    requires Ordered(docs) && AllAbove(docs, 0) && 0 <= start && f.filters.active
    requires Progress(docs, f, completed, marked, start, |Since(docs, start)|, s)
    requires Beneath(completed, start) && Agrees(f.resumed, completed, start)
    ensures Resumed(docs, f.filters, completed, marked, s.given, s.max)
  {
    hide Since, Ordered, Has, Offered, Marked, Agrees;
    var es := Since(docs, start);
    SinceIsAll(docs, start);
    EnumeratedAll(docs, start, |es|);
    assert es[..|es|] == es;
    OfferedExactly(docs, f, completed, start, es);
    PendingExactly(completed, marked, s.given, start, s.max);
    hide Progress, AllAbove, Beneath, Reached;
  }

  lemma OfferedExactly(docs: seq<Change>, f: Law, completed: Ranges, start: int, es: seq<Change>)
    requires AllAbove(docs, 0) && f.filters.active && Beneath(completed, start) && Agrees(f.resumed, completed, start)
    requires Among(es, docs) && AllAbove(es, start) && forall c :: c in docs && c.sequence > start ==> c in es
    ensures forall c :: c in Offered(f, es) <==> c in docs && f.filters.pass(c) && !Has(completed, c.sequence)
    ensures AllAbove(Offered(f, es), start)
  {
    hide Has, Offered;
  }

  lemma PendingExactly(completed: Ranges, marked: Ranges, given: seq<Change>, start: int, max: int)
    requires Marked(completed, marked, given, start, max) && AllAbove(given, start) && Beneath(completed, start)
    ensures forall t :: 0 <= t <= max ==> (!Has(marked, t) <==> t in Sequences(given))
  {
    hide Has;
    forall t | 0 <= t <= max ensures !Has(marked, t) <==> t in Sequences(given) {
      SequencesOf(given, t);
    }
  }

  /** The sequences looked at are now completed, but for those to be pushed. */
  ghost predicate Marked(before: Ranges, after: Ranges, revs: seq<Change>, floor: int, max: int)
  {
    forall t :: Has(after, t) <==> t !in Sequences(revs) && (floor < t <= max || Has(before, t))
  }

  lemma SequencesPositive(revs: seq<Change>, floor: int)
    requires AllAbove(revs, floor) && 0 <= floor
    ensures forall i :: 0 <= i < |revs| ==> 0 < Sequences(revs)[i]
  {
    forall i | 0 <= i < |revs| ensures 0 < Sequences(revs)[i] { assert revs[i] in revs; }
  }

  /** From index `k` on there is no change of a document that is also in `rest`. */
  ghost predicate Later(revs: seq<Change>, k: nat, rest: seq<Change>)
  {
    forall i, c :: k <= i < |revs| && c in rest ==> revs[i].docID != c.docID
  }

  lemma LaterTail(revs: seq<Change>, k: nat, batch: seq<Change>, i: nat)
    requires i < |batch| && Distinct(batch) && Later(revs, k, batch[i..])
    ensures Later(revs, k, [batch[i]]) && Later(revs, k, batch[i + 1..]) && Later([batch[i]], 0, batch[i + 1..])
  {
    assert batch[i] in batch[i..];
    forall c | c in batch[i + 1..] ensures c in batch[i..] && c.docID != batch[i].docID {
      var j :| 0 <= j < |batch[i + 1..]| && batch[i + 1..][j] == c;
      assert batch[i + 1 + j] == c && batch[i..][1 + j] == c;
    }
  }

  lemma RevsAreDistinct(w: World, rest: seq<Change>, start: int, f: Law, floor: int, before: seq<Change>,
                        call: Call, lost: bool)
    requires Observed(w, rest, start, f, floor, before, call, lost)
    ensures Ordered(call.revs) && Distinct(call.revs)
  {
  }

  lemma ObserveStep(call: Call, f: Law, floor: int, batch: seq<Change>, i: nat)
    requires i < |batch|
    ensures ObserveAll(call, f, floor, batch[..i + 1])
         == ObserveAll(call, f, floor, batch[..i]).Observe(f, floor, batch[i])
  {
    assert batch[..i + 1][..i] == batch[..i];
  }

  lemma OrderedQueue(w: World)
    requires w.Valid()
    ensures Ordered(w.queue) && Current(w.docs, w.queue)
  {
  }

  lemma SameBut(w: World, w': World, start: int, f: Law, floor: int, before: seq<Change>, call: Call, lost: bool)
    requires w' == w.(queue := w'.queue) && Observed(w, w.queue, start, f, floor, before, call, lost)
    ensures Observed(w', w.queue, start, f, floor, before, call, lost)
  {
  }

  lemma RestValid(w: World, n: nat)
    requires w.Valid() && n <= |w.queue|
    ensures w.(queue := w.queue[n..]).Valid() && Distinct(w.queue[..n])
  {
  }

  lemma {:induction false} WithoutOne(revs: seq<Change>, j: nat, d: DocID)
    requires j < |revs| && revs[j].docID == d && forall i :: 0 <= i < |revs| && i != j ==> revs[i].docID != d
    ensures Without(revs, d) == revs[..j] + revs[j + 1..]
  {
    var k := |revs| - 1;
    WithoutLast(revs, d);
    hide Without;
    if j == k {
      WithoutNone(revs[..k], d);
    } else {
      WithoutOne(revs[..k], j, d);
      TailOfFront(revs, j);
    }
  }

  lemma WithoutLast(cs: seq<Change>, d: DocID)
    requires cs != []
    ensures var k := |cs| - 1;
            Without(cs, d) == Without(cs[..k], d) + if cs[k].docID == d then [] else [cs[k]]
  {
    assert Without(cs[..|cs| - 1], d) + [] == Without(cs[..|cs| - 1], d);
  }

  lemma TailOfFront(revs: seq<Change>, j: nat)
    requires j + 1 < |revs|
    ensures var k := |revs| - 1;
            revs[..k][..j] + revs[..k][j + 1..] + [revs[k]] == revs[..j] + revs[j + 1..]
  {
    var k := |revs| - 1;
    assert revs[..k][..j] == revs[..j];
    assert revs[..k][j + 1..] + [revs[k]] == revs[j + 1..];
  }

  lemma {:induction false} WithoutNone(revs: seq<Change>, d: DocID)
    requires forall i :: 0 <= i < |revs| ==> revs[i].docID != d
    ensures Without(revs, d) == revs
  {
    if revs != [] {
      WithoutNone(revs[..|revs| - 1], d);
      assert revs == revs[..|revs| - 1] + [revs[|revs| - 1]];
    }
  }

  lemma NothingOffered(f: Law, es: seq<Change>)
    ensures Offered(f, es[..0]) == []
  {
  }

  lemma OneOffered(f: Law, es: seq<Change>, i: nat)
    requires i < |es|
    ensures Offered(f, es[..i + 1]) == Offered(f, es[..i]) + if f.Wanted(es[i]) then [es[i]] else []
  {
    assert es[..i + 1] == es[..i] + [es[i]] && es[..i + 1][..i] == es[..i];
    assert Offered(f, es[..i]) + [] == Offered(f, es[..i]);
  }

  /** A checkpoint is saved, and a later replicator reads it back and starts a push from it; from nothing if
      what was saved cannot be parsed. */
  method Resume(json: string -> bool, saved: Checkpoint, world: World, filters: Filters, continuous: bool)
    returns (feed: ChangesFeed)
    requires saved.Valid() && forall i :: 0 <= i < |saved.completed| ==> saved.completed[i].end < TWO_64
    requires world.Valid() && !world.observing && filters.active && HasNumerals(json)
    ensures feed.Valid() && feed.world.docs == world.docs
    ensures Resumed(world.docs, filters, Kept(json, saved.completed, saved.remote), feed.checkpoint.completed,
                    feed.given, feed.maxSequence)
  {
    hide Resumed, World.Valid, Canonical, Has, Restore, Save, HasNumerals;
    var document := saved.ToJSON();
    SaveRestore(json, saved.completed, saved.remote);
    var checkpoint := new Checkpoint();
    checkpoint.ReadDict(document.Parsed(json));
    var start := checkpoint.LocalMinSequence();
    feed := new ChangesFeed(world, start, filters, continuous, checkpoint);
    feed.OfferAll();
  }

  // ---- Two runs that lose a document

  const DOC_A := Change("a", 1)
  const DOC_B := Change("b", 2)

  /** A collection with one document, and filters that let everything through. */
  function OneDocument(): World { World([DOC_A], 1, [DOC_A], false, 0, []) }

  function Open(active: bool): Filters { Filters((c: Change) => true, (c: Change) => false, active) }

  lemma OneDocumentValid()
    ensures OneDocument().Valid() && Since(OneDocument().docs, 0) == [DOC_A]
  {
  }

  /** The enumerator throws at the one document there is, and the feed takes itself to have caught up; then
      another document is saved, and asked for. The position has passed the first one by. */
  method FailedEnumerationLoses() returns (feed: ChangesFeed)
    ensures feed.Valid() && feed.law.Eligible(DOC_A) && DOC_A in feed.world.docs && DOC_A !in feed.given
    ensures feed.start < DOC_A.sequence <= feed.maxSequence
    ensures !Complete(feed.world.docs, feed.start, feed.law, feed.State())
  {
    hide Holds, Has, Canonical, Between, Marked, Agrees, Distinct, ObserveAll, AfterRounds, SeenIn, World.Next;
    feed := FailedEnumeration();
    feed.DbChanged(Put("b"));
    ghost var w := feed.world;
    SavedB(w);
    var revs, askAgain, err;
    ghost var how;
    revs, askAgain, err, how := feed.GetMoreChanges(10, None, []);
    RoundsAlone(w, how.takes);
    SeenB(feed.law, SeenIn(w, [], how.takes), feed.world.queue);
  }

  method FailedEnumeration() returns (feed: ChangesFeed)
    ensures fresh(feed) && fresh(feed.checkpoint) && feed.Valid() && feed.start == 0 && feed.continuous
    ensures feed.law.filters == Open(false) && feed.caughtUp && feed.world == OneDocument().Observe()
    ensures feed.maxSequence == 0 && feed.given == []
  {
    OneDocumentValid();
    hide Holds, Has, World.Valid, Since, Canonical, Between, Broken, Marked, Agrees, Distinct;
    var checkpoint := new Checkpoint();
    feed := new ChangesFeed(OneDocument(), 0, Open(false), true, checkpoint);
    var revs, askAgain, err;
    ghost var how;
    revs, askAgain, err, how := feed.GetMoreChanges(10, Some(InNext(0)), []);
  }

  lemma SavedB(w: World)
    requires w == OneDocument().Observe().Next(Put("b"))
    ensures w.docs == [DOC_A, DOC_B] && w.queue == [DOC_B]
  {
    assert [DOC_A][..0] == [];
  }

  lemma SeenB(f: Law, seen: seq<Change>, rest: seq<Change>)
    requires seen + rest == [DOC_B] && f.filters == Open(false)
    ensures var call := ObserveAll(Call(0, []), f, 0, seen);
            if rest == [] then call == Call(2, [DOC_B]) else call == Call(0, [])
  {
    if rest == [] {
      assert seen == [DOC_B] && [DOC_B][..0] == [];
      assert ObserveAll(Call(0, []), f, 0, []) == Call(0, []);
    } else {
      assert |rest| == 1 && seen == [];
    }
  }

  /** A filter throws at the one document there is. The position has passed it, and the checkpoint has its
      sequence as completed, so that it is not even offered after a restart. */
  method ThrowingFilterLoses() returns (feed: ChangesFeed)
    ensures feed.Valid() && feed.law.Eligible(DOC_A) && DOC_A in feed.world.docs && DOC_A !in feed.given
    ensures feed.start < DOC_A.sequence <= feed.maxSequence && Has(feed.checkpoint.completed, DOC_A.sequence)
    ensures !Complete(feed.world.docs, feed.start, feed.law, feed.State())
  {
    OneDocumentValid();
    Initial();
    hide Holds, Has, World.Valid, Since, Noting, Canonical, Agrees, Breaks;
    var checkpoint := new Checkpoint();
    feed := new ChangesFeed(OneDocument(), 0, Open(true), false, checkpoint);
    var revs, askAgain, err;
    ghost var how;
    revs, askAgain, err, how := feed.GetMoreChanges(10, Some(InFilter(0)), []);
    assert how.n == 0 && how.threw;
    assert feed.given == [] && feed.maxSequence == 1;
  }
}
