/** The documents of a collection by sequence, and what an observer of it has still to be told. */
module Changes {
  type DocID = string

  /** A document at a sequence. In an observer's list, sequence 0 is a purge. */
  datatype Change = Change(docID: DocID, sequence: int)

  /** In the order of their sequences, purges aside. */
  ghost predicate Ordered(cs: seq<Change>)
  {
    forall i, j :: 0 <= i < j < |cs| && cs[i].sequence > 0 && cs[j].sequence > 0 ==> cs[i].sequence < cs[j].sequence
  }

  /** No document twice. */
  ghost predicate Distinct(cs: seq<Change>)
  {
    forall i, j :: 0 <= i < j < |cs| ==> cs[i].docID != cs[j].docID
  }

  ghost predicate AtMost(cs: seq<Change>, n: int) { forall c :: c in cs ==> c.sequence <= n }

  ghost predicate Among(cs: seq<Change>, ds: seq<Change>) { forall c :: c in cs ==> c in ds }

  ghost predicate AllAbove(cs: seq<Change>, n: int) { forall c :: c in cs ==> n < c.sequence }

  /** The changes without those of a document. */
  function Without(cs: seq<Change>, d: DocID): (r: seq<Change>)
    ensures forall c :: c in r <==> c in cs && c.docID != d
    ensures |r| <= |cs|
  {
    if cs == [] then []
    else
      var front, last := Without(cs[..|cs| - 1], d), cs[|cs| - 1];
      assert cs == cs[..|cs| - 1] + [last];
      if last.docID == d then front else front + [last]
  }

  /** The change of a document takes the place of an earlier one, at the end. */
  function Touch(cs: seq<Change>, c: Change): seq<Change> { Without(cs, c.docID) + [c] }

  lemma {:induction false} WithoutKeeps(cs: seq<Change>, d: DocID)
    requires Ordered(cs) && Distinct(cs)
    ensures Ordered(Without(cs, d)) && Distinct(Without(cs, d))
  {
    if cs != [] {
      var front, last := cs[..|cs| - 1], cs[|cs| - 1];
      assert cs == front + [last];
      WithoutKeeps(front, d);
      forall x | x in front
        ensures x.docID != last.docID && (last.sequence > 0 && x.sequence > 0 ==> x.sequence < last.sequence)
      {
        var i :| 0 <= i < |front| && front[i] == x;
        assert cs[i] == x;
      }
      if last.docID != d {
        SnocAny(Without(front, d), last);
      }
    }
  }

  lemma SnocAny(cs: seq<Change>, c: Change)
    requires Ordered(cs) && Distinct(cs)
    requires forall x :: x in cs ==> x.docID != c.docID && (c.sequence > 0 && x.sequence > 0 ==> x.sequence < c.sequence)
    ensures Ordered(cs + [c]) && Distinct(cs + [c])
  {
    var r := cs + [c];
    forall i, j | 0 <= i < j < |r|
      ensures r[i].docID != r[j].docID && (r[i].sequence > 0 && r[j].sequence > 0 ==> r[i].sequence < r[j].sequence)
    {
      assert r[i] in cs;
    }
  }

  lemma TouchKeeps(cs: seq<Change>, c: Change)
    requires Ordered(cs) && Distinct(cs) && (c.sequence > 0 ==> AtMost(cs, c.sequence - 1))
    ensures Ordered(Touch(cs, c)) && Distinct(Touch(cs, c))
    ensures forall x :: x in Touch(cs, c) <==> x == c || (x in cs && x.docID != c.docID)
  {
    WithoutKeeps(cs, c.docID);
    SnocAny(Without(cs, c.docID), c);
  }

  datatype DbEvent = Put(docID: DocID) | Purge(docID: DocID)

  /** The collection: its documents with their current sequences, the last sequence given out, all
      changes ever made, and, once there is an observer, the last sequence when it began and the changes
      after its placeholder. */
  datatype World = World(docs: seq<Change>, last: int, log: seq<Change>, observing: bool, from: int,
                         queue: seq<Change>) {
    ghost predicate Valid()
    {
      match this
      case World(docs, last, log, observing, from, queue) =>
        && 0 <= last && Ordered(docs) && Distinct(docs) && AllAbove(docs, 0) && AtMost(docs, last) && Among(docs, log)
        && Ordered(queue) && Distinct(queue) && Current(docs, queue) && (queue != [] ==> observing)
        && (observing ==> from <= last)
    }

    /** An observer begins. */
    function Observe(): World { this.(observing := true, from := last) }

    /** Of an observer whose list has not been read: it has just the documents changed since it began. */
    ghost predicate Whole() { forall c :: c in docs ==> (c in queue <==> c.sequence > from) }

    /** A document is saved or purged: its change goes to the end. */
    function Next(e: DbEvent): World
    {
      match e
      case Put(d) =>
        var c := Change(d, last + 1);
        World(Touch(docs, c), last + 1, log + [c], observing, from, if observing then Touch(queue, c) else queue)
      case Purge(d) =>
        World(Without(docs, d), last, log, observing, from, if observing then Touch(queue, Change(d, 0)) else queue)
    }

    /** Some changes in turn. */
    function NextAll(events: seq<DbEvent>): World
    {
      if events == [] then this else NextAll(events[..|events| - 1]).Next(events[|events| - 1])
    }

    /** The observer's list after `n` changes, or as many as there are, were read off it. */
    function Drop(n: nat): World { this.(queue := queue[if n <= |queue| then n else |queue|..]) }

    function FirstOf(n: nat): seq<Change> { queue[..if n <= |queue| then n else |queue|] }

    /** The same collection, whatever its observer has seen. */
    ghost predicate SameCollection(w: World) { docs == w.docs && last == w.last && log == w.log }

    /** What becomes of the collection does not depend on the observer. */
    lemma {:induction false} SameAfterAll(w: World, events: seq<DbEvent>)
      requires SameCollection(w)
      ensures NextAll(events).SameCollection(w.NextAll(events))
    {
      if events != [] { SameAfterAll(w, events[..|events| - 1]); }
    }

    lemma {:induction false} NextAllJoins(a: seq<DbEvent>, b: seq<DbEvent>)
      ensures NextAll(a + b) == NextAll(a).NextAll(b)
    {
      if b == [] {
        assert a + b == a;
      } else {
        var k := |b| - 1;
        NextAllJoins(a, b[..k]);
        assert (a + b)[..|a + b| - 1] == a + b[..k];
      }
    }

    /** What happened first, and then. */
    lemma ThenChanged(was: World, is_: World, a: seq<DbEvent>, b: seq<DbEvent>)
      requires was.SameCollection(NextAll(a)) && is_.SameCollection(was.NextAll(b))
      ensures is_.SameCollection(NextAll(a + b))
    {
      was.SameAfterAll(NextAll(a), b);
      NextAllJoins(a, b);
      hide World.NextAll;
    }

    lemma NextIsValid(e: DbEvent)
      requires Valid()
      ensures Next(e).Valid()
    {
      var c := if e.Put? then Change(e.docID, last + 1) else Change(e.docID, 0);
      assert AtMost(queue, last);
      TouchKeeps(queue, c);
      if e.Put? {
        TouchKeeps(docs, c);
      } else {
        WithoutKeeps(docs, e.docID);
      }
      hide Ordered, Distinct, Without;
      CurrentAfter(e, c);
    }

    lemma NextIsWhole(e: DbEvent)
      requires Valid() && observing && Whole()
      ensures Next(e).Whole()
    {
      hide Ordered, Distinct;
    }

    lemma CurrentAfter(e: DbEvent, c: Change)
      requires Current(docs, queue) && (queue != [] ==> observing) && 0 <= last
      requires c == if e.Put? then Change(e.docID, last + 1) else Change(e.docID, 0)
      ensures Current(Next(e).docs, Next(e).queue)
    {
    }
  }

  /** What the queue says of a document is its current state, or a purge. */
  ghost predicate Current(docs: seq<Change>, queue: seq<Change>)
  {
    forall c :: c in queue ==> 0 <= c.sequence && (c.sequence > 0 ==> c in docs)
  }
}
