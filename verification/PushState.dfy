/** Who owns a revision that is being pushed, told on values. */
module PushStates {
  import opened Common
  import opened SequenceSets
  import opened PushLedger
  import opened Changes

  type Docs = map<DocID, Change>

  /** `m` has `r` under its document. */
  ghost predicate Held(m: Docs, r: Change) { r.docID in m && m[r.docID] == r }

  ghost predicate Keyed(m: Docs) { forall d :: d in m ==> m[d].docID == d }

  ghost predicate NoRepeats(rs: seq<Change>) { forall i, j :: 0 <= i < j < |rs| ==> rs[i] != rs[j] }

  /** Of the same document, `x` is the older revision. */
  ghost predicate Older(x: Change, y: Change) { x.docID == y.docID ==> x.sequence < y.sequence }

  /** Revisions of the same document stand in the order of their sequences. */
  ghost predicate Rising(rs: seq<Change>) { forall i, j :: 0 <= i < j < |rs| ==> Older(rs[i], rs[j]) }

  function Flat(lists: seq<seq<Change>>): seq<Change>
  {
    if lists == [] then [] else Flat(lists[..|lists| - 1]) + lists[|lists| - 1]
  }

  function RemoveAt<T>(xs: seq<T>, i: nat): seq<T>
    requires i < |xs|
  {
    xs[..i] + xs[i + 1..]
  }

  lemma FlatOneMore(lists: seq<seq<Change>>, l: seq<Change>)
    ensures multiset(Flat(lists + [l])) == multiset(Flat(lists)) + multiset(l)
  {
    assert (lists + [l])[..|lists|] == lists;
  }

  lemma {:induction false} FlatOneLess(lists: seq<seq<Change>>, i: nat)
    requires i < |lists|
    ensures multiset(Flat(lists)) == multiset(Flat(RemoveAt(lists, i))) + multiset(lists[i])
  {
    var k := |lists| - 1;
    if i == k {
      assert RemoveAt(lists, i) == lists[..k];
    } else {
      FlatOneLess(lists[..k], i);
      assert RemoveAt(lists, i) == RemoveAt(lists[..k], i) + [lists[k]];
      FlatOneMore(RemoveAt(lists[..k], i), lists[k]);
    }
  }

  lemma OneLess(xs: seq<Change>, i: nat)
    requires i < |xs|
    ensures multiset(xs) == multiset(RemoveAt(xs, i)) + multiset{xs[i]}
  {
    assert xs == xs[..i] + [xs[i]] + xs[i + 1..];
  }

  /** `p` has each revision of `docs` once, and nothing else. */
  ghost predicate Owns(p: multiset<Change>, docs: Docs)
  {
    forall r :: p[r] == if Held(docs, r) then 1 else 0
  }

  lemma OwnsMore(p: multiset<Change>, docs: Docs, r: Change)
    requires Owns(p, docs) && r.docID !in docs
    ensures Owns(p + multiset{r}, docs[r.docID := r])
  {
    assert !Held(docs, r);
  }

  lemma OwnsLess(p: multiset<Change>, q: multiset<Change>, docs: Docs, r: Change)
    requires Owns(p, docs) && p == q + multiset{r}
    ensures Held(docs, r) && Owns(q, docs - {r.docID})
  {
    assert p[r] >= 1;
    forall x ensures q[x] == if Held(docs - {r.docID}, x) then 1 else 0 {
      assert p[x] == q[x] + multiset{r}[x];
    }
  }

  /** Only what lies between 1 and `last` may differ. */
  ghost predicate Within(a: Ranges, b: Ranges, last: int)
  {
    forall t :: t <= 0 || t > last ==> (Has(a, t) <==> Has(b, t))
  }

  /** One sequence within the range is added or taken out. */
  lemma WithinAdd(rs: Ranges, from: Ranges, last: int, q: int)
    requires Canonical(rs) && Within(rs, from, last) && 0 < q <= last
    ensures Canonical(Add(rs, q)) && Within(Add(rs, q), from, last)
  {
    AddAtCorrect(rs, q);
    hide Has, Canonical, AddAt;
  }

  lemma WithinRemove(rs: Ranges, from: Ranges, last: int, q: int)
    requires Canonical(rs) && Within(rs, from, last) && 0 < q <= last
    ensures Canonical(Remove(rs, q)) && Within(Remove(rs, q), from, last)
  {
    RemoveCorrect(rs, q);
    hide Has, Canonical, Remove;
  }

  /** The revisions of a pusher.
        docs       the revision of each document that is being pushed; `next` the one that waits for it
        announced  the lists of changes sent, not yet answered
        queue      wanted by the peer; sending, awaiting: sent as messages; stalled: left to a restart
        conflicts  may be retried when the remote revision changes; retry: to be retried when idle
        inbox      the rest of the changes being taken in; hand: those being disposed of
        completed  the checkpoint; lastRead: the last sequence it was told of
        ended      the sequences of revisions that ended without being completed
        resumed    the checkpoint when the push began */
  datatype PushState = PushState(
    docs: Docs, next: Docs,
    announced: seq<seq<Change>>, queue: seq<Change>, sending: seq<Change>, awaiting: seq<Change>, stalled: seq<Change>,
    conflicts: Docs, retry: seq<Change>, inbox: seq<Change>, hand: seq<Change>,
    completed: Ranges, lastRead: int, ended: set<int>, resumed: Ranges)
  {
    /** All that is announced, queued or in flight. */
    ghost function Pipeline(): multiset<Change>
    {
      multiset(Flat(announced)) + multiset(queue) + multiset(sending) + multiset(awaiting) + multiset(stalled)
      + multiset(hand)
    }

    /** A revision is in the pipeline once if it is the one being pushed for its document, and otherwise
        not at all. */
    ghost predicate Owned() { Owns(Pipeline(), docs) }

    /** What the pusher knows of. */
    ghost predicate Knows(r: Change)
    {
      Held(docs, r) || Held(next, r) || Held(conflicts, r) || r in retry || r in inbox
    }

    /** Nothing is known in two roles, and a revision waits only for another one. */
    ghost predicate Apart()
    {
      && Keyed(docs) && Keyed(next) && Keyed(conflicts) && NoRepeats(retry) && NoRepeats(inbox)
      && (forall d :: d in next ==> d in docs)
      && (forall r :: Held(docs, r) ==> !Held(next, r) && !Held(conflicts, r) && r !in retry && r !in inbox)
      && (forall r :: Held(next, r) ==> !Held(conflicts, r) && r !in retry && r !in inbox)
      && (forall r :: Held(conflicts, r) ==> r !in retry && r !in inbox)
      && (forall r :: r in retry ==> r !in inbox)
    }

    /** A sequence tells its revision. */
    ghost predicate Unique()
    {
      && (forall x, y :: Knows(x) && Knows(y) && x.sequence == y.sequence ==> x == y)
      && (forall x :: Knows(x) ==> 0 < x.sequence <= lastRead)
    }

    /** What waits is newer than what is being pushed; what is to be retried is older, and what comes in
        is newer than both. */
    ghost predicate Newer()
    {
      && Rising(retry) && Rising(inbox)
      && (forall d :: d in next && d in docs ==> docs[d].sequence < next[d].sequence)
      && (forall x :: x in retry && x.docID in docs ==> x.sequence < docs[x.docID].sequence)
      && (forall x :: x in inbox && x.docID in docs ==> docs[x.docID].sequence < x.sequence)
      && (forall x :: x in inbox && x.docID in next ==> next[x.docID].sequence < x.sequence)
      && (forall x, y :: x in retry && y in inbox ==> Older(x, y))
    }

    /** `r` is newer than what is to be retried and older than what comes in. */
    ghost predicate Fits(r: Change)
    {
      && (forall x :: x in retry ==> Older(x, r))
      && (forall x :: x in inbox ==> Older(r, x))
    }

    /** A newer revision of the document than its conflict is known: then the conflict's sequence is not
        current any more. */
    predicate Superseded(d: DocID)
      requires d in conflicts
    {
      var t := conflicts[d].sequence;
      || (d in docs && docs[d].sequence > t) || (d in next && next[d].sequence > t)
      || (exists x :: x in retry && x.docID == d && x.sequence > t)
      || (exists x :: x in inbox && x.docID == d && x.sequence > t)
    }

    /** What is being pushed, or waits for it, is pending in the checkpoint. */
    ghost predicate Open()
    {
      forall r :: InWork(r) ==> !Has(completed, r.sequence)
    }

    ghost predicate InWork(r: Change) { Held(docs, r) || Held(next, r) || r in retry || r in inbox }

    ghost predicate Pushes(t: int)
    {
      || (exists d :: d in docs && docs[d].sequence == t)
      || (exists d :: d in next && next[d].sequence == t)
      || (exists r :: r in inbox && r.sequence == t)
    }

    /** What is pending in the checkpoint is being pushed, waits for that, or ended uncompleted. */
    ghost predicate Accounted()
    {
      forall t :: 0 < t <= lastRead && !Has(completed, t) ==> t in ended || Pushes(t)
    }

    ghost predicate Valid(active: bool)
    {
      && Owned() && Apart() && Unique() && Newer() && Canonical(completed) && Within(completed, resumed, lastRead)
      && (active ==> Open() && Accounted())
    }

    /** A revision that is known in no role, but has a sequence of its own that is still pending. */
    ghost predicate Free(r: Change, active: bool)
    {
      && 0 < r.sequence <= lastRead && (forall x :: Knows(x) ==> x.sequence != r.sequence)
      && (active ==> !Has(completed, r.sequence))
    }

    // ---- Steps

    /** `gotChanges`, one turn: the first of the inbox starts, or waits for its document. */
    function TakeIn(active: bool): PushState
      requires inbox != []
    {
      var r := inbox[0];
      if r.docID !in docs then this.(docs := docs[r.docID := r], inbox := inbox[1..], hand := hand + [r])
      else
        this.(next := next[r.docID := r], inbox := inbox[1..],
              completed := if r.docID in next && active then Add(completed, next[r.docID].sequence) else completed)
    }

    /** `sendChanges` */
    function Announce(): PushState
    {
      if hand == [] then this else this.(announced := announced + [hand], hand := [])
    }

    /** The answer to a list of changes has come. */
    function Answered(i: nat): PushState
      requires i < |announced| && hand == []
    {
      this.(announced := RemoveAt(announced, i), hand := announced[i])
    }

    /** `doneWithRev` for the first of the hand. `mark` says that its sequence is completed, `ends` that
        it ended without that, `push` that a revision waiting for it is to be proposed. */
    function Finish(mark: bool, ends: bool, push: bool, active: bool): PushState
      requires hand != []
    {
      var r := hand[0];
      var marked := if mark && active then Add(completed, r.sequence) else completed;
      var s := this.(hand := hand[1..], docs := docs - {r.docID}, next := next - {r.docID}, completed := marked,
                     ended := if ends then ended + {r.sequence} else ended);
      if r.docID !in next then s
      else if push then s.Propose(next[r.docID], active)
      else s.(completed := Add(marked, next[r.docID].sequence))
    }

    /** `gotOutOfOrderChange` */
    function Propose(r: Change, active: bool): PushState
    {
      this.(docs := if r.docID in docs then docs else docs[r.docID := r],
            completed := if active then Remove(completed, r.sequence) else completed,
            announced := announced + [[r]])
    }

    /** `retryRevs`, immediately */
    function RetryNow(r: Change): PushState
    {
      this.(docs := if r.docID in docs then docs else docs[r.docID := r], queue := [r] + queue)
    }

    function RetryLater(r: Change): PushState { this.(retry := retry + [r]) }

    /** `retryRevs`, later: what is to be retried is taken in like new changes. */
    function RetryAll(): PushState { this.(inbox := retry, retry := []) }

    /** A conflict is remembered, in place of an older one of the document. */
    function Note(r: Change, active: bool): PushState
    {
      var d := r.docID;
      if d !in conflicts then this.(conflicts := conflicts[d := r])
      else if conflicts[d].sequence < r.sequence then
        this.(conflicts := conflicts[d := r],
              completed := if active then Add(completed, conflicts[d].sequence) else completed)
      else this
    }

    /** A conflict is given up, because of a newer local revision (`obsolete`) or else for good. */
    function Forget(d: DocID, obsolete: bool, active: bool): PushState
      requires d in conflicts
    {
      this.(conflicts := conflicts - {d},
            completed := if obsolete && active then Add(completed, conflicts[d].sequence) else completed)
    }

    /** Changes that came with an error are dropped. */
    function Drop(): PushState { this.(inbox := [], ended := ended + (set r | r in inbox :: r.sequence)) }

    /** The feed has looked at the sequences up to `last`, and found these. */
    function Receive(revs: seq<Change>, sequences: seq<int>, last: int, active: bool): PushState
    {
      this.(inbox := revs, lastRead := Max(lastRead, last),
            completed := if active && last > lastRead then Apply(completed, Checked(lastRead + 1, last, sequences))
                         else completed)
    }

    function Enqueue(): PushState
      requires hand != []
    {
      this.(queue := queue + [hand[0]], hand := hand[1..])
    }

    /** A change is proposed again by itself. */
    function Reannounce(): PushState
      requires hand != []
    {
      this.(announced := announced + [[hand[0]]], hand := hand[1..])
    }

    function Dequeue(): PushState
      requires queue != [] && hand == []
    {
      this.(queue := queue[1..], hand := [queue[0]])
    }

    function Send(): PushState
      requires hand != []
    {
      this.(sending := sending + [hand[0]], hand := hand[1..])
    }

    function Stall(): PushState
      requires hand != []
    {
      this.(stalled := stalled + [hand[0]], hand := hand[1..])
    }

    function Transmitted(i: nat): PushState
      requires i < |sending|
    {
      this.(sending := RemoveAt(sending, i), awaiting := awaiting + [sending[i]])
    }

    function Replied(i: nat): PushState
      requires i < |awaiting| && hand == []
    {
      this.(awaiting := RemoveAt(awaiting, i), hand := [awaiting[i]])
    }
  }

  // ---- Moves within the pipeline

  /** Only the places in the pipeline differ. */
  ghost predicate Moved(s: PushState, s': PushState)
  {
    && s' == s.(announced := s'.announced, queue := s'.queue, sending := s'.sending, awaiting := s'.awaiting,
                stalled := s'.stalled, hand := s'.hand)
    && s.Pipeline() == s'.Pipeline()
  }

  lemma MovedKeeps(s: PushState, s': PushState, active: bool)
    requires Moved(s, s') && s.Valid(active)
    ensures s'.Valid(active)
  {
    hide PushState.Pipeline, PushState.Newer, PushState.Apart, Has, Canonical, Owns, Within;
    SameNewer(s, s');
    SameApart(s, s');
    assert forall r :: s.Knows(r) <==> s'.Knows(r);
    assert forall r :: s.InWork(r) <==> s'.InWork(r);
    assert forall t :: s.Pushes(t) <==> s'.Pushes(t);
    hide PushState.Knows, PushState.InWork, PushState.Pushes;
  }

  lemma SameApart(s: PushState, s': PushState)
    requires s'.docs == s.docs && s'.next == s.next && s'.conflicts == s.conflicts
    requires s'.retry == s.retry && s'.inbox == s.inbox
    ensures s'.Apart() <==> s.Apart()
  {
    hide NoRepeats, Keyed, Held;
  }

  lemma SameNewer(s: PushState, s': PushState)
    requires s'.docs == s.docs && s'.next == s.next && s'.retry == s.retry && s'.inbox == s.inbox
    ensures s'.Newer() <==> s.Newer()
  {
    hide Rising, Older;
  }

  lemma HeadMoves(xs: seq<Change>)
    requires xs != []
    ensures multiset(xs) == multiset{xs[0]} + multiset(xs[1..])
  {
    assert xs == [xs[0]] + xs[1..];
  }

  lemma AnnounceMoves(s: PushState)
    ensures Moved(s, s.Announce())
  {
    FlatOneMore(s.announced, s.hand);
  }

  lemma AnsweredMoves(s: PushState, i: nat)
    requires i < |s.announced| && s.hand == []
    ensures Moved(s, s.Answered(i))
  {
    FlatOneLess(s.announced, i);
  }

  lemma EnqueueMoves(s: PushState)
    requires s.hand != []
    ensures Moved(s, s.Enqueue())
  {
    HeadMoves(s.hand);
  }

  lemma SendMoves(s: PushState)
    requires s.hand != []
    ensures Moved(s, s.Send())
  {
    HeadMoves(s.hand);
  }

  lemma StallMoves(s: PushState)
    requires s.hand != []
    ensures Moved(s, s.Stall())
  {
    HeadMoves(s.hand);
  }

  lemma ReannounceMoves(s: PushState)
    requires s.hand != []
    ensures Moved(s, s.Reannounce())
  {
    HeadMoves(s.hand);
    FlatOneMore(s.announced, [s.hand[0]]);
  }

  lemma DequeueMoves(s: PushState)
    requires s.queue != [] && s.hand == []
    ensures Moved(s, s.Dequeue())
  {
    HeadMoves(s.queue);
  }

  lemma TransmittedMoves(s: PushState, i: nat)
    requires i < |s.sending|
    ensures Moved(s, s.Transmitted(i))
  {
    OneLess(s.sending, i);
  }

  lemma RepliedMoves(s: PushState, i: nat)
    requires i < |s.awaiting| && s.hand == []
    ensures Moved(s, s.Replied(i))
  {
    OneLess(s.awaiting, i);
  }

  // ---- Taking in changes

  lemma TakeInOwned(s: PushState, active: bool)
    requires s.inbox != [] && s.Owned() && s.Apart()
    ensures s.TakeIn(active).Owned()
  {
    var r, s' := s.inbox[0], s.TakeIn(active);
    if r.docID !in s.docs {
      assert multiset(s'.hand) == multiset(s.hand) + multiset{r};
      assert s'.Pipeline() == s.Pipeline() + multiset{r};
      hide PushState.Pipeline, Owns;
      OwnsMore(s.Pipeline(), s.docs, r);
    }
  }

  lemma InboxTail(s: PushState)
    requires s.inbox != [] && NoRepeats(s.inbox)
    ensures NoRepeats(s.inbox[1..]) && s.inbox[0] !in s.inbox[1..]
    ensures forall r :: r in s.inbox <==> r == s.inbox[0] || r in s.inbox[1..]
  {
    assert s.inbox == [s.inbox[0]] + s.inbox[1..];
  }

  lemma TakeInApart(s: PushState, active: bool)
    requires s.inbox != [] && s.Apart()
    ensures s.TakeIn(active).Apart()
    ensures forall r :: s.TakeIn(active).Knows(r) ==> s.Knows(r)
  {
    InboxTail(s);
    hide NoRepeats, PushState.Pipeline;
  }

  lemma UniqueKept(s: PushState, s': PushState)
    requires s.Unique() && s'.lastRead >= s.lastRead && forall r :: s'.Knows(r) ==> s.Knows(r)
    ensures s'.Unique()
  {
  }

  lemma TakeInNewer(s: PushState, active: bool)
    requires s.inbox != [] && s.Newer() && s.Apart()
    ensures s.TakeIn(active).Newer()
  {
    RisingTail(s.inbox);
    InboxTail(s);
    hide PushState.Apart, NoRepeats, Rising, Add;
    if s.inbox[0].docID !in s.docs { TakeInStarts(s, active); } else { TakeInWaits(s, active); }
  }

  lemma RisingTail(rs: seq<Change>)
    requires rs != [] && Rising(rs)
    ensures Rising(rs[1..]) && forall x :: x in rs[1..] ==> Older(rs[0], x)
  {
    forall x | x in rs[1..] ensures Older(rs[0], x) {
      var i :| 0 <= i < |rs[1..]| && rs[1..][i] == x;
      assert rs[i + 1] == x;
    }
  }

  lemma TakeInStarts(s: PushState, active: bool)
    requires s.inbox != [] && s.Newer() && s.inbox[0].docID !in s.docs && forall d :: d in s.next ==> d in s.docs
    requires Rising(s.inbox[1..]) && forall x :: x in s.inbox[1..] ==> x in s.inbox && Older(s.inbox[0], x)
    ensures s.TakeIn(active).Newer()
  {
    hide Rising;
    assert s.inbox[0] in s.inbox;
  }

  lemma TakeInWaits(s: PushState, active: bool)
    requires s.inbox != [] && s.Newer() && s.inbox[0].docID in s.docs
    requires Rising(s.inbox[1..]) && forall x :: x in s.inbox[1..] ==> x in s.inbox && Older(s.inbox[0], x)
    ensures s.TakeIn(active).Newer()
  {
    hide Rising, Add;
    assert s.inbox[0] in s.inbox;
  }

  lemma TakeInOpen(s: PushState)
    requires s.inbox != [] && s.Apart() && s.Unique() && s.Open() && Canonical(s.completed)
    ensures s.TakeIn(true).Open()
  {
    var r, s' := s.inbox[0], s.TakeIn(true);
    InboxTail(s);
    if r.docID in s.docs && r.docID in s.next {
      AddAtCorrect(s.completed, s.next[r.docID].sequence);
      assert Held(s.next, s.next[r.docID]) && s.Knows(s.next[r.docID]);
    }
    hide NoRepeats, Has, Canonical, Add, PushState.Pipeline;
  }

  lemma TakeInAccounted(s: PushState)
    requires s.inbox != [] && s.Apart() && s.Unique() && s.Accounted() && Canonical(s.completed)
    ensures s.TakeIn(true).Accounted()
  {
    var r, s' := s.inbox[0], s.TakeIn(true);
    InboxTail(s);
    if r.docID in s.docs && r.docID in s.next {
      AddAtCorrect(s.completed, s.next[r.docID].sequence);
    }
    hide NoRepeats, Has, Canonical, Add, PushState.Pipeline;
    forall t | 0 < t <= s.lastRead && !Has(s'.completed, t) ensures t in s.ended || s'.Pushes(t) {
      TakeInPushes(s, t);
    }
  }

  lemma TakeInPushes(s: PushState, t: int)
    requires s.inbox != [] && s.Apart()
    ensures var d := s.inbox[0].docID;
            s.Pushes(t) ==> s.TakeIn(true).Pushes(t) || (d in s.docs && d in s.next && t == s.next[d].sequence)
  {
    var r, s' := s.inbox[0], s.TakeIn(true);
    InboxTail(s);
    hide NoRepeats, Has, Canonical, Add, PushState.Pipeline;
    if d :| d in s.docs && s.docs[d].sequence == t {
      assert s'.docs[d].sequence == t;
    }
    if d :| d in s.next && s.next[d].sequence == t {
      assert d != r.docID ==> s'.next[d].sequence == t;
    }
    if x :| x in s.inbox && x.sequence == t {
      if x == r {
        if r.docID in s.docs { assert s'.next[r.docID].sequence == t; } else { assert s'.docs[r.docID].sequence == t; }
      }
    }
  }

  lemma TakeInKeeps(s: PushState, active: bool)
    requires s.inbox != [] && s.Valid(active)
    ensures s.TakeIn(active).Valid(active)
  {
    TakeInOwned(s, active);
    TakeInApart(s, active);
    TakeInNewer(s, active);
    UniqueKept(s, s.TakeIn(active));
    var r := s.inbox[0];
    if r.docID in s.docs && r.docID in s.next && active {
      assert s.Knows(s.next[r.docID]);
      WithinAdd(s.completed, s.resumed, s.lastRead, s.next[r.docID].sequence);
    }
    if active {
      TakeInOpen(s);
      TakeInAccounted(s);
    }
    hide PushState.Owned, PushState.Apart, PushState.Unique, PushState.Open, PushState.Accounted, PushState.Newer;
    hide Canonical, Add, Within;
  }

  // ---- Being done with a revision

  lemma FinishOwned(s: PushState, mark: bool, ends: bool, push: bool, active: bool)
    requires s.hand != [] && s.Owned() && Keyed(s.next)
    ensures Held(s.docs, s.hand[0]) && s.Finish(mark, ends, push, active).Owned()
  {
    var r, s' := s.hand[0], s.Finish(mark, ends, push, active);
    var t := s.(hand := s.hand[1..]);
    HandLess(s);
    OwnsLess(s.Pipeline(), t.Pipeline(), s.docs, r);
    if r.docID in s.next && push {
      var n := s.next[r.docID];
      OneAnnounced(t, n);
      assert s'.Pipeline() == t.(announced := t.announced + [[n]]).Pipeline();
      hide PushState.Pipeline, Owns;
      OwnsMore(t.Pipeline(), s.docs - {r.docID}, n);
    } else {
      assert s'.Pipeline() == t.Pipeline();
    }
  }

  lemma HandLess(s: PushState)
    requires s.hand != []
    ensures s.Pipeline() == s.(hand := s.hand[1..]).Pipeline() + multiset{s.hand[0]}
  {
    HeadMoves(s.hand);
  }

  lemma OneAnnounced(s: PushState, n: Change)
    ensures s.(announced := s.announced + [[n]]).Pipeline() == s.Pipeline() + multiset{n}
  {
    FlatOneMore(s.announced, [n]);
  }

  lemma FinishApart(s: PushState, mark: bool, ends: bool, push: bool, active: bool)
    requires s.hand != [] && Held(s.docs, s.hand[0]) && s.Apart()
    ensures s.Finish(mark, ends, push, active).Apart()
    ensures forall x :: s.Finish(mark, ends, push, active).Knows(x) ==> s.Knows(x) && x != s.hand[0]
  {
    DocsAfter(s, mark, ends, push, active);
    StillApart(s, s.Finish(mark, ends, push, active), s.hand[0]);
  }

  /** Some of what was pushed or waited is gone, or waits no more. */
  lemma StillApart(s: PushState, s': PushState, r: Change)
    requires s.Apart() && Held(s.docs, r) && s'.conflicts == s.conflicts && s'.retry == s.retry && s'.inbox == s.inbox
    requires Keyed(s'.docs) && Keyed(s'.next) && forall d :: d in s'.next ==> d in s'.docs
    requires forall x :: Held(s'.next, x) ==> Held(s.next, x) && !Held(s'.docs, x)
    requires forall x :: Held(s'.docs, x) ==> Held(s.docs, x) || Held(s.next, x)
    requires Held(s'.docs, r) || Held(s'.next, r) ==> Held(s.next, r)
    ensures s'.Apart() && forall x :: s'.Knows(x) ==> s.Knows(x) && x != r
  {
    hide Held, Keyed, NoRepeats;
  }

  lemma DocsAfter(s: PushState, mark: bool, ends: bool, push: bool, active: bool)
    requires s.hand != [] && Held(s.docs, s.hand[0]) && Keyed(s.docs) && Keyed(s.next)
    requires (forall d :: d in s.next ==> d in s.docs) && (forall x :: Held(s.docs, x) ==> !Held(s.next, x))
    ensures var d, s' := s.hand[0].docID, s.Finish(mark, ends, push, active);
            && Keyed(s'.docs) && Keyed(s'.next)
            && (forall d :: d in s'.next ==> d in s'.docs)
            && (forall x :: Held(s'.next, x) ==> Held(s.next, x) && !Held(s'.docs, x))
            && (forall x :: Held(s'.docs, x) ==> Held(s.docs, x) || Held(s.next, x))
            && (Held(s'.docs, s.hand[0]) || Held(s'.next, s.hand[0]) ==> Held(s.next, s.hand[0]))
  {
    hide Add, Remove;
    var s' := s.Finish(mark, ends, push, active);
    forall x | Held(s'.next, x) ensures Held(s.next, x) && !Held(s'.docs, x) {
      assert x.docID != s.hand[0].docID && !Held(s.docs, x);
    }
  }

  lemma FinishNewer(s: PushState, mark: bool, ends: bool, push: bool, active: bool)
    requires s.hand != [] && Held(s.docs, s.hand[0]) && s.Newer() && Keyed(s.next)
    requires forall d :: d in s.next ==> d in s.docs
    ensures var r, s' := s.hand[0], s.Finish(mark, ends, push, active);
            s'.Newer() && s'.Fits(r) && (r.docID in s'.docs ==> r.sequence < s'.docs[r.docID].sequence)
  {
    hide PushState.Newer, PushState.Fits, Add, Remove;
    StillNewer(s, s.Finish(mark, ends, push, active), s.hand[0]);
  }

  /** `r` is done, and what waited for it is gone or takes its place. */
  lemma StillNewer(s: PushState, s': PushState, r: Change)
    requires s.Newer() && Held(s.docs, r) && s'.retry == s.retry && s'.inbox == s.inbox
    requires forall d :: d in s'.docs ==> if d == r.docID then d in s.next && s'.docs[d] == s.next[d]
                                          else d in s.docs && s'.docs[d] == s.docs[d]
    requires forall d :: d in s'.next ==> d != r.docID && d in s.next && s'.next[d] == s.next[d]
    ensures s'.Newer() && s'.Fits(r) && (r.docID in s'.docs ==> r.sequence < s'.docs[r.docID].sequence)
  {
    hide Rising;
  }

  /** What becomes of the checkpoint. */
  lemma FinishMarks(s: PushState, mark: bool, ends: bool, push: bool)
    requires s.hand != [] && Canonical(s.completed) && 0 < s.hand[0].sequence
    requires s.hand[0].docID in s.next ==> 0 < s.next[s.hand[0].docID].sequence
    ensures var r, s' := s.hand[0], s.Finish(mark, ends, push, true);
            && Canonical(s'.completed)
            && forall t :: Has(s'.completed, t)
                      <==> if r.docID in s.next && t == s.next[r.docID].sequence then !push
                           else (mark && t == r.sequence) || Has(s.completed, t)
  {
    var r := s.hand[0];
    AddAtCorrect(s.completed, r.sequence);
    var marked := if mark then Add(s.completed, r.sequence) else s.completed;
    if r.docID in s.next {
      AddAtCorrect(marked, s.next[r.docID].sequence);
      RemoveCorrect(marked, s.next[r.docID].sequence);
    }
    hide Has, Canonical, Add, Remove;
  }

  lemma FinishOpen(s: PushState, mark: bool, ends: bool, push: bool)
    requires s.hand != [] && Held(s.docs, s.hand[0]) && s.Apart() && s.Unique() && s.Open() && Canonical(s.completed)
    ensures s.Finish(mark, ends, push, true).Open()
  {
    var r, s' := s.hand[0], s.Finish(mark, ends, push, true);
    assert s.Knows(r);
    if r.docID in s.next { assert s.Knows(s.next[r.docID]); }
    FinishMarks(s, mark, ends, push);
    FinishApart(s, mark, ends, push, true);
    hide Has, Canonical, Add, Remove, PushState.Pipeline, NoRepeats;
    forall x | s'.InWork(x) ensures !Has(s'.completed, x.sequence) {
      assert s'.Knows(x);
    }
  }

  lemma FinishAccounted(s: PushState, mark: bool, ends: bool, push: bool)
    requires s.hand != [] && Held(s.docs, s.hand[0]) && s.Apart() && s.Unique() && s.Accounted() && Canonical(s.completed)
    requires mark || ends
    ensures s.Finish(mark, ends, push, true).Accounted()
  {
    var r, s' := s.hand[0], s.Finish(mark, ends, push, true);
    assert s.Knows(r);
    if r.docID in s.next { assert s.Knows(s.next[r.docID]); }
    FinishMarks(s, mark, ends, push);
    hide Has, Canonical, Add, Remove, PushState.Pipeline, NoRepeats;
    forall t | 0 < t <= s'.lastRead && !Has(s'.completed, t) ensures t in s'.ended || s'.Pushes(t) {
      FinishPushes(s, mark, ends, push, t);
    }
  }

  lemma FinishPushes(s: PushState, mark: bool, ends: bool, push: bool, t: int)
    requires s.hand != [] && Held(s.docs, s.hand[0]) && s.Apart()
    ensures var r, s' := s.hand[0], s.Finish(mark, ends, push, true);
            && (s.Pushes(t) ==> s'.Pushes(t) || t == r.sequence || (r.docID in s.next && t == s.next[r.docID].sequence))
            && (r.docID in s.next && push && t == s.next[r.docID].sequence ==> s'.Pushes(t))
  {
    var r, s' := s.hand[0], s.Finish(mark, ends, push, true);
    hide Has, Canonical, Add, Remove, PushState.Pipeline, NoRepeats;
    if d :| d in s.docs && s.docs[d].sequence == t {
      if d != r.docID { assert s'.docs[d].sequence == t; }
    }
    if d :| d in s.next && s.next[d].sequence == t {
      if d != r.docID { assert s'.next[d].sequence == t; }
    }
    if r.docID in s.next && push { assert s'.docs[r.docID] == s.next[r.docID]; }
  }

  /** Being done with a revision keeps what holds; and the revision is then known in no role. */
  lemma FinishKeeps(s: PushState, mark: bool, ends: bool, push: bool, active: bool)
    requires s.hand != [] && s.Valid(active) && (mark || ends)
    ensures s.Finish(mark, ends, push, active).Valid(active)
    ensures s.Finish(mark, ends, push, active).Free(s.hand[0], active && !mark)
    ensures s.Finish(mark, ends, push, active).Fits(s.hand[0])
  {
    FinishOwned(s, mark, ends, push, active);
    FinishValid(s, mark, ends, push, active);
    FinishNewer(s, mark, ends, push, active);
    FinishFree(s, mark, ends, push, active);
    hide PushState.Owned, PushState.Apart, PushState.Unique, PushState.Open, PushState.Accounted, PushState.Newer;
    hide PushState.Fits, PushState.Free, PushState.Finish, Canonical, Within;
  }

  lemma FinishValid(s: PushState, mark: bool, ends: bool, push: bool, active: bool)
    requires s.hand != [] && s.Valid(active) && (mark || ends) && Held(s.docs, s.hand[0])
    ensures var s' := s.Finish(mark, ends, push, active);
            && s'.Apart() && s'.Unique() && Canonical(s'.completed) && Within(s'.completed, s'.resumed, s'.lastRead)
            && (active ==> s'.Open() && s'.Accounted())
  {
    FinishApart(s, mark, ends, push, active);
    FinishFields(s, mark, ends, push, active);
    UniqueKept(s, s.Finish(mark, ends, push, active));
    FinishCanonical(s, mark, ends, push, active);
    if active {
      FinishOpen(s, mark, ends, push);
      FinishAccounted(s, mark, ends, push);
    }
    hide PushState.Owned, PushState.Apart, PushState.Unique, PushState.Open, PushState.Accounted, PushState.Newer;
    hide PushState.Finish, Canonical, Within;
  }

  lemma FinishFree(s: PushState, mark: bool, ends: bool, push: bool, active: bool)
    requires s.hand != [] && s.Valid(active) && Held(s.docs, s.hand[0])
    ensures s.Finish(mark, ends, push, active).Free(s.hand[0], active && !mark)
  {
    var r := s.hand[0];
    assert s.Knows(r);
    FinishApart(s, mark, ends, push, active);
    FinishFields(s, mark, ends, push, active);
    if active && !mark {
      if r.docID in s.next { assert s.Knows(s.next[r.docID]); }
      FinishMarks(s, mark, ends, push);
    }
    hide PushState.Owned, PushState.Apart, PushState.Accounted, PushState.Newer, PushState.Knows, PushState.Finish;
    hide Canonical, Has, Within;
  }

  /** What being done with a revision leaves as it is. */
  lemma FinishFields(s: PushState, mark: bool, ends: bool, push: bool, active: bool)
    requires s.hand != []
    ensures var s' := s.Finish(mark, ends, push, active);
            && s'.hand == s.hand[1..] && s'.queue == s.queue && s'.sending == s.sending && s'.inbox == s.inbox
            && s'.lastRead == s.lastRead && s'.resumed == s.resumed && s'.awaiting == s.awaiting
            && |s'.announced| == |s.announced| + if s.hand[0].docID in s.next && push then 1 else 0
  {
    hide Add, Remove;
  }

  /** Another revision of the document is being pushed then, exactly if one waited and is proposed. */
  lemma FinishDocs(s: PushState, mark: bool, ends: bool, push: bool, active: bool)
    requires s.hand != [] && s.Valid(active)
    ensures s.hand[0].docID in s.Finish(mark, ends, push, active).docs <==> s.hand[0].docID in s.next && push
    ensures var r, s' := s.hand[0], s.Finish(mark, ends, push, active);
            r.docID in s'.docs ==> r.sequence < s'.docs[r.docID].sequence
  {
    FinishOwned(s, mark, ends, push, active);
    FinishNewer(s, mark, ends, push, active);
    hide Add, Remove, PushState.Owned, PushState.Unique, PushState.Open, PushState.Accounted, PushState.Newer, Canonical;
    hide Within;
  }

  lemma FinishCanonical(s: PushState, mark: bool, ends: bool, push: bool, active: bool)
    requires s.hand != [] && Held(s.docs, s.hand[0]) && s.Apart() && s.Unique()
    requires Canonical(s.completed) && Within(s.completed, s.resumed, s.lastRead)
    ensures var s' := s.Finish(mark, ends, push, active);
            Canonical(s'.completed) && Within(s'.completed, s.resumed, s.lastRead)
  {
    var r := s.hand[0];
    assert s.Knows(r);
    if r.docID in s.next { assert s.Knows(s.next[r.docID]); }
    hide Has, Canonical, Within, Add, Remove, PushState.Unique, PushState.Apart;
    WithinAdd(s.completed, s.resumed, s.lastRead, r.sequence);
    var marked := if mark && active then Add(s.completed, r.sequence) else s.completed;
    if r.docID in s.next {
      WithinAdd(marked, s.resumed, s.lastRead, s.next[r.docID].sequence);
      WithinRemove(marked, s.resumed, s.lastRead, s.next[r.docID].sequence);
    }
  }

  // ---- Retrying

  /** A revision that is put back at once is owned exactly if nothing else of its document is pushed. */
  lemma RetryNowExactly(s: PushState, r: Change, active: bool)
    requires s.Valid(active) && s.Free(r, active) && s.Fits(r)
    ensures s.RetryNow(r).Valid(active) <==> r.docID !in s.docs
  {
    var s' := s.RetryNow(r);
    assert s'.Pipeline() == s.Pipeline() + multiset{r};
    hide PushState.Pipeline, Within;
    assert !s.Knows(r);
    if r.docID in s.docs {
      assert !Held(s.docs, r);
    } else {
      OwnsMore(s.Pipeline(), s.docs, r);
      StartsNewer(s, s', r);
      StartsApart(s, s', r, active);
    }
  }

  lemma StartsNewer(s: PushState, s': PushState, r: Change)
    requires s.Newer() && s.Fits(r) && r.docID !in s.docs && s.Apart()
    requires s' == s.(docs := s.docs[r.docID := r], queue := s'.queue, announced := s'.announced,
                      completed := s'.completed)
    ensures s'.Newer()
  {
    hide Rising, Held, Keyed, NoRepeats;
  }

  /** A revision known in no role starts to be pushed. */
  lemma StartsApart(s: PushState, s': PushState, r: Change, active: bool)
    requires s.Apart() && s.Unique() && s.Free(r, active) && r.docID !in s.docs
    requires active ==> s.Open() && forall t :: 0 < t <= s.lastRead && !Has(s.completed, t) ==>
                                                  t in s.ended || s.Pushes(t) || t == r.sequence
    requires s' == s.(docs := s.docs[r.docID := r], queue := s'.queue, announced := s'.announced)
    ensures s'.Apart() && s'.Unique() && (active ==> s'.Open() && s'.Accounted())
  {
    assert !s.Knows(r);
    StartHeld(s, s', r);
    UniqueMore(s, s', r);
    hide Has, NoRepeats, Keyed, Held;
    if active { StartLedger(s, s', r); }
  }

  lemma StartHeld(s: PushState, s': PushState, r: Change)
    requires s.Apart() && !s.Knows(r) && r.docID !in s.docs
    requires s' == s.(docs := s.docs[r.docID := r], queue := s'.queue, announced := s'.announced)
    ensures s'.Apart() && Keyed(s'.docs)
    ensures forall x :: s'.Knows(x) ==> s.Knows(x) || x == r
    ensures forall x :: s'.InWork(x) ==> s.InWork(x) || x == r
    ensures s'.Pushes(r.sequence) && forall t :: s.Pushes(t) ==> s'.Pushes(t)
  {
    assert Keyed(s'.docs);
    assert forall x :: Held(s'.docs, x) <==> Held(s.docs, x) || x == r;
    assert s'.docs[r.docID] == r;
    assert forall d :: d in s.docs ==> s'.docs[d] == s.docs[d];
    hide NoRepeats, Keyed, Held;
  }

  lemma StartLedger(s: PushState, s': PushState, r: Change)
    requires s'.completed == s.completed && s'.lastRead == s.lastRead && s'.ended == s.ended
    requires s.Open() && !Has(s.completed, r.sequence)
    requires forall t :: 0 < t <= s.lastRead && !Has(s.completed, t) ==> t in s.ended || s.Pushes(t) || t == r.sequence
    requires forall x :: s'.InWork(x) ==> s.InWork(x) || x == r
    requires s'.Pushes(r.sequence) && forall t :: s.Pushes(t) ==> s'.Pushes(t)
    ensures s'.Open() && s'.Accounted()
  {
    hide Has, PushState.InWork, PushState.Pushes;
  }

  /** One more revision is known. */
  lemma UniqueMore(s: PushState, s': PushState, r: Change)
    requires s.Unique() && s'.lastRead == s.lastRead && s.Free(r, false)
    requires forall x :: s'.Knows(x) ==> s.Knows(x) || x == r
    ensures s'.Unique()
  {
    hide PushState.Knows;
  }

  /** The checkpoint gains only sequences that are not in work. */
  lemma LedgerKept(s: PushState, s': PushState)
    requires s.Open() && s.Accounted() && s'.lastRead == s.lastRead && s'.ended == s.ended
    requires forall t :: Has(s.completed, t) ==> Has(s'.completed, t)
    requires forall t :: s.Pushes(t) ==> s'.Pushes(t)
    requires forall x :: s'.InWork(x) ==> !Has(s'.completed, x.sequence)
    ensures s'.Open() && s'.Accounted()
  {
    hide Has, PushState.Pushes, PushState.InWork;
  }

  lemma RetryLaterApart(s: PushState, r: Change)
    requires s.Apart() && !s.Knows(r)
    ensures s.RetryLater(r).Apart()
    ensures forall x :: s.RetryLater(r).Knows(x) <==> s.Knows(x) || x == r
    ensures forall x :: s.RetryLater(r).InWork(x) <==> s.InWork(x) || x == r
    ensures forall t :: s.RetryLater(r).Pushes(t) <==> s.Pushes(t)
  {
    var s' := s.RetryLater(r);
    assert forall x :: x in s'.retry <==> x in s.retry || x == r;
    assert NoRepeats(s'.retry);
    hide NoRepeats, Keyed, Held;
  }

  lemma RetryLaterNewer(s: PushState, r: Change)
    requires s.Newer() && s.Fits(r) && (r.docID in s.docs ==> r.sequence < s.docs[r.docID].sequence)
    ensures s.RetryLater(r).Newer()
  {
    assert Rising(s.RetryLater(r).retry) by {
      assert forall i :: 0 <= i < |s.retry| ==> s.retry[i] in s.retry;
    }
    hide Rising;
  }

  lemma RetryLaterKeeps(s: PushState, r: Change, active: bool)
    requires s.Valid(active) && s.Free(r, active) && s.Fits(r)
    requires r.docID in s.docs ==> r.sequence < s.docs[r.docID].sequence
    ensures s.RetryLater(r).Valid(active)
  {
    var s' := s.RetryLater(r);
    assert s'.Pipeline() == s.Pipeline();
    RetryLaterApart(s, r);
    RetryLaterNewer(s, r);
    UniqueMore(s, s', r);
    hide PushState.Newer, PushState.Pipeline, PushState.Apart, PushState.Unique;
    hide PushState.Knows, PushState.InWork, PushState.Pushes;
    hide Has, Canonical, Owns, Within;
    if active { LedgerKept(s, s'); }
  }

  lemma RetryAllKeeps(s: PushState, active: bool)
    requires s.Valid(active) && s.inbox == [] && s.docs == map[]
    ensures s.RetryAll().Valid(active)
  {
    var s' := s.RetryAll();
    assert s'.Pipeline() == s.Pipeline();
    RetryAllApart(s);
    assert s'.Newer();
    UniqueKept(s, s');
    hide PushState.Newer, PushState.Pipeline, PushState.Apart, PushState.Unique;
    hide PushState.Knows, PushState.InWork, PushState.Pushes;
    hide Has, Canonical, Owns, Within;
    if active { LedgerKept(s, s'); }
  }

  lemma RetryAllApart(s: PushState)
    requires s.Apart() && s.inbox == []
    ensures s.RetryAll().Apart()
    ensures forall x :: s.RetryAll().Knows(x) <==> s.Knows(x)
    ensures forall x :: s.RetryAll().InWork(x) <==> s.InWork(x)
    ensures forall t :: s.Pushes(t) ==> s.RetryAll().Pushes(t)
  {
    hide NoRepeats, Keyed, Held;
  }

  // ---- Conflicts

  /** Only the conflicts differ, and nothing new but `r` is among them. */
  ghost predicate OtherConflicts(s: PushState, s': PushState, r: Change)
  {
    && s' == s.(conflicts := s'.conflicts, completed := s'.completed) && Keyed(s'.conflicts)
    && forall x :: Held(s'.conflicts, x) ==> Held(s.conflicts, x) || x == r
  }

  lemma ConflictsApart(s: PushState, s': PushState, r: Change)
    requires s.Apart() && OtherConflicts(s, s', r) && (s.Knows(r) ==> Held(s.conflicts, r))
    ensures s'.Apart() && s'.Pipeline() == s.Pipeline() && (s.Newer() ==> s'.Newer())
    ensures forall x :: s'.Knows(x) ==> s.Knows(x) || x == r
    ensures forall x :: s'.InWork(x) <==> s.InWork(x)
    ensures forall t :: s'.Pushes(t) <==> s.Pushes(t)
  {
    hide NoRepeats, Keyed, Held, Rising;
  }

  /** Completing a conflict completes nothing that is in work. */
  lemma ConflictCompleted(s: PushState, d: DocID)
    requires s.Apart() && s.Unique() && s.Open() && d in s.conflicts && Canonical(s.completed)
    ensures var c := Add(s.completed, s.conflicts[d].sequence);
            && Canonical(c) && (forall t :: Has(s.completed, t) ==> Has(c, t))
            && forall x :: s.InWork(x) ==> !Has(c, x.sequence)
  {
    var r := s.conflicts[d];
    assert Held(s.conflicts, r) && s.Knows(r);
    AddAtCorrect(s.completed, r.sequence);
    hide Has, Canonical, Add, NoRepeats;
    assert forall x :: s.InWork(x) ==> s.Knows(x) && x != r;
  }

  lemma ConflictCanonical(s: PushState, d: DocID)
    requires s.Apart() && s.Unique() && d in s.conflicts
    requires Canonical(s.completed) && Within(s.completed, s.resumed, s.lastRead)
    ensures var c := Add(s.completed, s.conflicts[d].sequence); Canonical(c) && Within(c, s.resumed, s.lastRead)
  {
    assert s.Knows(s.conflicts[d]);
    WithinAdd(s.completed, s.resumed, s.lastRead, s.conflicts[d].sequence);
  }

  lemma NoteConflicts(s: PushState, r: Change, active: bool)
    requires Keyed(s.conflicts)
    ensures OtherConflicts(s, s.Note(r, active), r)
  {
    hide Add;
  }

  lemma NoteKeeps(s: PushState, r: Change, active: bool)
    requires s.Valid(active) && s.Free(r, false)
    ensures s.Note(r, active).Valid(active)
  {
    hide PushState.Newer, Owns, PushState.Pipeline;
    var s' := s.Note(r, active);
    assert !s.Knows(r);
    NoteConflicts(s, r, active);
    hide OtherConflicts;
    ConflictsApart(s, s', r);
    UniqueMore(s, s', r);
    if r.docID in s.conflicts {
      ConflictCanonical(s, r.docID);
      if active { ConflictCompleted(s, r.docID); }
    }
    hide PushState.Newer, PushState.Pipeline, PushState.Apart, PushState.Unique, PushState.Knows, PushState.InWork;
    hide PushState.Pushes, Has, Canonical, Owns, Add, Within;
    if active { LedgerKept(s, s'); }
  }

  lemma ForgetKeeps(s: PushState, d: DocID, obsolete: bool, active: bool)
    requires s.Valid(active) && d in s.conflicts
    ensures s.Forget(d, obsolete, active).Valid(active)
    ensures forall x :: s.Forget(d, obsolete, active).Knows(x) ==> s.Knows(x) && x != s.conflicts[d]
  {
    var r, s' := s.conflicts[d], s.Forget(d, obsolete, active);
    assert Held(s.conflicts, r) && !Held(s'.conflicts, r);
    assert OtherConflicts(s, s', r);
    ConflictsApart(s, s', r);
    assert !s'.Knows(r);
    UniqueKept(s, s');
    ConflictCanonical(s, d);
    if active { ConflictCompleted(s, d); }
    hide PushState.Newer, PushState.Pipeline, PushState.Apart, PushState.Unique, PushState.Knows, PushState.InWork;
    hide PushState.Pushes, Has, Canonical, Owns, Add, Within;
    if active { LedgerKept(s, s'); }
  }

  /** A conflict that is proposed again is owned exactly if nothing else of its document is pushed. */
  lemma ProposeConflictExactly(s: PushState, d: DocID, active: bool)
    requires s.Valid(active) && d in s.conflicts && !s.Superseded(d) && s.inbox == []
    ensures s.Forget(d, false, active).Propose(s.conflicts[d], active).Valid(active) <==> d !in s.docs
  {
    var r := s.conflicts[d];
    var t := s.Forget(d, false, active);
    ForgetKeeps(s, d, false, active);
    assert s.Knows(r) && r.docID == d;
    assert forall x :: t.Knows(x) ==> x.sequence != r.sequence;
    assert t.Fits(r) by { ConflictFits(s, t, d); }
    hide PushState.Forget, PushState.Fits, PushState.Newer, Within;
    ProposeExactly(t, r, active);
  }

  /** A conflict is superseded exactly if a newer revision of its document is known in any role. */
  lemma SupersededExactly(s: PushState, d: DocID)
    requires s.Apart() && d in s.conflicts
    ensures s.Superseded(d) <==> exists x :: s.Knows(x) && x.docID == d && x.sequence > s.conflicts[d].sequence
  {
    hide NoRepeats;
    if s.Superseded(d) {
      if d in s.docs && s.docs[d].sequence > s.conflicts[d].sequence {
        assert s.Knows(s.docs[d]);
      } else if d in s.next && s.next[d].sequence > s.conflicts[d].sequence {
        assert s.Knows(s.next[d]);
      } else if x :| x in s.retry && x.docID == d && x.sequence > s.conflicts[d].sequence {
        assert s.Knows(x);
      } else {
        var x :| x in s.inbox && x.docID == d && x.sequence > s.conflicts[d].sequence;
        assert s.Knows(x);
      }
    }
  }

  /** A conflict that is not superseded is newer than anything else that is known of its document. */
  lemma ConflictFits(s: PushState, t: PushState, d: DocID)
    requires s.Apart() && s.Unique() && d in s.conflicts && !s.Superseded(d) && t.retry == s.retry && t.inbox == []
    ensures t.Fits(s.conflicts[d])
  {
    var r := s.conflicts[d];
    assert Held(s.conflicts, r) && s.Knows(r);
    forall x | x in s.retry ensures Older(x, r) { assert s.Knows(x) && x != r; }
  }

  lemma ProposeExactly(s: PushState, r: Change, active: bool)
    requires s.Valid(active) && s.Free(r, false) && s.Fits(r)
    ensures s.Propose(r, active).Valid(active) <==> r.docID !in s.docs
  {
    var s' := s.Propose(r, active);
    OneAnnounced(s, r);
    assert s'.Pipeline() == s.Pipeline() + multiset{r};
    RemoveCorrect(s.completed, r.sequence);
    WithinRemove(s.completed, s.resumed, s.lastRead, r.sequence);
    assert !s.Knows(r);
    hide PushState.Pipeline, Has, Canonical, Remove, Within;
    if r.docID in s.docs {
      assert !Held(s.docs, r);
    } else {
      OwnsMore(s.Pipeline(), s.docs, r);
      StartsNewer(s, s', r);
      hide Owns, PushState.Newer, PushState.Fits;
      PendingAgain(s, s'.completed, r, active);
      StartsApart(s.(completed := s'.completed), s', r, active);
    }
  }

  lemma PendingAgain(s: PushState, completed: Ranges, r: Change, active: bool)
    requires s.Valid(active) && s.Free(r, false) && Canonical(completed)
    requires completed == if active then Remove(s.completed, r.sequence) else s.completed
    requires active ==> forall t :: Has(completed, t) <==> Has(s.completed, t) && t != r.sequence
    ensures var u := s.(completed := completed);
            && u.Apart() && u.Unique() && u.Free(r, active)
            && (active ==> u.Open() && forall t :: 0 < t <= u.lastRead && !Has(u.completed, t) ==>
                                                     t in u.ended || u.Pushes(t) || t == r.sequence)
  {
    var u := s.(completed := completed);
    hide Has, Canonical, Remove, NoRepeats, Held, Owns, PushState.Pipeline, PushState.Newer, Within;
    assert forall x :: u.Knows(x) <==> s.Knows(x);
    assert forall x :: u.InWork(x) <==> s.InWork(x);
    assert forall t :: u.Pushes(t) <==> s.Pushes(t);
  }

  // ---- The feed

  lemma ReceiveApart(s: PushState, revs: seq<Change>, sequences: seq<int>, last: int, active: bool)
    requires s.Apart() && s.Unique() && s.inbox == [] && Fresh(revs, sequences, s.lastRead, last)
    ensures s.Receive(revs, sequences, last, active).Apart()
    ensures forall x :: s.Receive(revs, sequences, last, active).Knows(x) <==> s.Knows(x) || x in revs
  {
    var s' := s.Receive(revs, sequences, last, active);
    assert forall x :: x in revs ==> x.sequence > s.lastRead && !s.Knows(x);
    hide Keyed, Held, Apply;
  }

  lemma ReceiveNewer(s: PushState, revs: seq<Change>, sequences: seq<int>, last: int, active: bool)
    requires s.Newer() && s.Apart() && s.Unique() && s.inbox == [] && Fresh(revs, sequences, s.lastRead, last)
    ensures s.Receive(revs, sequences, last, active).Newer()
  {
    assert forall x :: x in revs ==> x.sequence > s.lastRead;
    assert Rising(revs);
    hide Fresh, Rising, Apply;
    KnownBounds(s);
    hide PushState.Apart, PushState.Unique, Held, Keyed;
    NewerWith(s, s.Receive(revs, sequences, last, active), revs);
  }

  /** All that is pushed, waits or is to be retried has been read. */
  lemma KnownBounds(s: PushState)
    requires s.Apart() && s.Unique()
    ensures forall d :: d in s.docs ==> s.docs[d].sequence <= s.lastRead
    ensures forall d :: d in s.next ==> s.next[d].sequence <= s.lastRead
    ensures forall x :: x in s.retry ==> x.sequence <= s.lastRead
  {
    hide NoRepeats;
    assert forall d :: d in s.docs ==> s.Knows(s.docs[d]);
    assert forall d :: d in s.next ==> s.Knows(s.next[d]);
    assert forall x :: x in s.retry ==> s.Knows(x);
  }

  lemma NewerWith(s: PushState, s': PushState, revs: seq<Change>)
    requires s.Newer() && s'.docs == s.docs && s'.next == s.next && s'.retry == s.retry && s'.inbox == revs
    requires Rising(revs) && forall x :: x in revs ==> x.sequence > s.lastRead
    requires forall d :: d in s.docs ==> s.docs[d].sequence <= s.lastRead
    requires forall d :: d in s.next ==> s.next[d].sequence <= s.lastRead
    requires forall x :: x in s.retry ==> x.sequence <= s.lastRead
    ensures s'.Newer()
  {
    hide Rising;
  }

  lemma ReceiveUnique(s: PushState, revs: seq<Change>, sequences: seq<int>, last: int, active: bool)
    requires s.Apart() && s.Unique() && s.inbox == [] && 0 <= s.lastRead <= last
    requires Fresh(revs, sequences, s.lastRead, last)
    ensures s.Receive(revs, sequences, last, active).Unique()
  {
    var s' := s.Receive(revs, sequences, last, active);
    ReceiveApart(s, revs, sequences, last, active);
    assert forall x :: x in revs ==> s.lastRead < x.sequence <= last;
    assert forall x, y :: x in revs && y in revs && x.sequence == y.sequence ==> x == y;
    hide PushState.Knows, Apply;
  }

  lemma FreshSequences(revs: seq<Change>, sequences: seq<int>, floor: int, last: int)
    requires Fresh(revs, sequences, floor, last)
    ensures forall x :: x in revs ==> x.sequence in sequences
    ensures forall t :: t in sequences ==> exists x :: x in revs && x.sequence == t
  {
    forall t | t in sequences ensures exists x :: x in revs && x.sequence == t {
      var i :| 0 <= i < |sequences| && sequences[i] == t;
      assert revs[i] in revs;
    }
  }

  lemma FreshBounds(revs: seq<Change>, sequences: seq<int>, floor: int, last: int)
    requires Fresh(revs, sequences, floor, last) && 0 <= floor <= last
    ensures forall t :: t in sequences ==> floor < t <= last
    ensures Checked(floor + 1, last, sequences).Sane() && (floor == last ==> sequences == [])
  {
    if sequences != [] { assert floor < sequences[0] <= last; }
  }

  lemma ReceiveMarks(s: PushState, revs: seq<Change>, sequences: seq<int>, last: int)
    requires Canonical(s.completed) && 0 <= s.lastRead <= last && Fresh(revs, sequences, s.lastRead, last)
    ensures var c := s.Receive(revs, sequences, last, true).completed;
            Canonical(c) && forall t :: Has(c, t) <==> t !in sequences && (s.lastRead < t <= last || Has(s.completed, t))
  {
    hide Fresh, Has, Canonical, Apply;
    FreshBounds(revs, sequences, s.lastRead, last);
    if last > s.lastRead {
      CheckedMarks(s.completed, s.lastRead + 1, last, sequences);
    }
  }

  lemma ReceiveWithin(s: PushState, revs: seq<Change>, sequences: seq<int>, last: int, active: bool)
    requires Canonical(s.completed) && 0 <= s.lastRead <= last && Fresh(revs, sequences, s.lastRead, last)
    requires Within(s.completed, s.resumed, s.lastRead)
    ensures var s' := s.Receive(revs, sequences, last, active); Within(s'.completed, s.resumed, s'.lastRead)
  {
    ReceiveMarks(s, revs, sequences, last);
    FreshBounds(revs, sequences, s.lastRead, last);
    hide Has, Apply, Canonical, Fresh;
  }

  lemma CheckedMarks(rs: Ranges, first: int, last: int, sequences: seq<int>)
    requires Canonical(rs) && Checked(first, last, sequences).Sane()
    ensures var c := Apply(rs, Checked(first, last, sequences));
            Canonical(c) && forall t :: Has(c, t) <==> t !in sequences && (first <= t <= last || Has(rs, t))
  {
    hide Has, Canonical, Apply;
    ApplyCorrect(rs, Checked(first, last, sequences));
  }

  lemma ReceiveLedger(s: PushState, revs: seq<Change>, sequences: seq<int>, last: int)
    requires s.Unique() && s.Open() && s.Accounted() && Canonical(s.completed) && s.inbox == []
    requires 0 <= s.lastRead <= last && Fresh(revs, sequences, s.lastRead, last)
    ensures var s' := s.Receive(revs, sequences, last, true); s'.Open() && s'.Accounted() && Canonical(s'.completed)
  {
    var s' := s.Receive(revs, sequences, last, true);
    ReceiveMarks(s, revs, sequences, last);
    FreshSequences(revs, sequences, s.lastRead, last);
    FreshBounds(revs, sequences, s.lastRead, last);
    ReceiveWork(s, revs, sequences, last);
    hide Fresh, Has, Canonical, PushState.Receive, PushState.InWork, PushState.Pushes, PushState.Knows;
    forall x | s'.InWork(x) ensures !Has(s'.completed, x.sequence) {
      if x !in revs { assert s.Knows(x); }
    }
  }

  lemma ReceiveWork(s: PushState, revs: seq<Change>, sequences: seq<int>, last: int)
    requires s.inbox == [] && s.lastRead <= last
    ensures var s' := s.Receive(revs, sequences, last, true);
            && s'.lastRead == last && s'.ended == s.ended
            && (forall x :: s'.InWork(x) ==> x in revs || (s.InWork(x) && s.Knows(x)))
            && (forall t :: s.Pushes(t) ==> s'.Pushes(t))
            && (forall x :: x in revs ==> s'.Pushes(x.sequence))
  {
    hide Held, Apply;
  }

  lemma ReceiveKeeps(s: PushState, revs: seq<Change>, sequences: seq<int>, last: int, active: bool)
    requires s.Valid(active) && s.inbox == [] && 0 <= s.lastRead <= last && Fresh(revs, sequences, s.lastRead, last)
    ensures s.Receive(revs, sequences, last, active).Valid(active)
  {
    var s' := s.Receive(revs, sequences, last, active);
    assert s'.Pipeline() == s.Pipeline();
    ReceiveApart(s, revs, sequences, last, active);
    ReceiveUnique(s, revs, sequences, last, active);
    ReceiveNewer(s, revs, sequences, last, active);
    if active { ReceiveLedger(s, revs, sequences, last); }
    ReceiveWithin(s, revs, sequences, last, active);
    hide Within;
    hide PushState.Pipeline, PushState.Apart, PushState.Unique, PushState.Newer, PushState.Open, PushState.Accounted;
    hide Apply, Owns;
  }

  lemma DropApart(s: PushState)
    requires s.Apart()
    ensures s.Drop().Apart() && forall x :: s.Drop().Knows(x) ==> s.Knows(x)
    ensures forall x :: s.Drop().InWork(x) ==> s.InWork(x)
    ensures forall t :: s.Pushes(t) ==> s.Drop().Pushes(t) || t in s.Drop().ended
  {
    hide NoRepeats, Keyed, Held;
    assert NoRepeats(s.Drop().inbox) by { EmptyNoRepeats(); }
  }

  lemma EmptyNoRepeats()
    ensures NoRepeats([])
  {
  }

  lemma DropKeeps(s: PushState, active: bool)
    requires s.Valid(active)
    ensures s.Drop().Valid(active)
  {
    var s' := s.Drop();
    assert s'.Pipeline() == s.Pipeline();
    DropApart(s);
    assert s'.Newer();
    UniqueKept(s, s');
    hide PushState.Newer, PushState.Pipeline, PushState.Apart, PushState.Unique;
    hide PushState.Knows, PushState.InWork, PushState.Pushes;
    hide Has, Canonical, Owns, Within;
  }

  /** Of each document at most one revision is in the pipeline, once; it is the one being pushed; and one
      that waits for it is newer, and not in the pipeline. */
  lemma OwnedMeans(s: PushState, x: Change, y: Change, active: bool)
    requires s.Valid(active) && x in s.Pipeline() && y in s.Pipeline()
    ensures x.docID == y.docID ==> x == y
    ensures s.Pipeline()[x] == 1 && x.docID in s.docs && s.docs[x.docID] == x
    ensures x.docID in s.next ==> s.next[x.docID] !in s.Pipeline() && x.sequence < s.next[x.docID].sequence
  {
    hide PushState.Pipeline, Has, Canonical;
    assert Held(s.docs, x) && Held(s.docs, y);
    if x.docID in s.next { assert Held(s.next, s.next[x.docID]); }
  }

  /** Changes as a feed brings them: beyond what was read, each sequence once. */
  predicate Fresh(revs: seq<Change>, sequences: seq<int>, floor: int, last: int)
  {
    && |sequences| == |revs| && (forall i :: 0 <= i < |revs| ==> sequences[i] == revs[i].sequence)
    && (forall i :: 0 <= i < |revs| ==> floor < revs[i].sequence <= last)
    && (forall i, j :: 0 <= i < j < |revs| ==> revs[i].sequence < revs[j].sequence)
  }
}
