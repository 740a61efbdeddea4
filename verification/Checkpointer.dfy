/** Replicator/Checkpointer.cc: autosave. Each method is one critical section of the mutex, so any
    interleaving of threads is a sequence of calls. */
module Checkpointers {
  import opened Common
  import opened RemoteSequences
  import opened SequenceSets
  import opened PushLedger
  import opened Checkpoints

  /** What callers, the timer and the client of the saves can do, in any order. */
  datatype AutosaveEvent =
    | RemoteMin(remote: RemoteSequence)
    | Repend(s: int)
    | Check(revs: seq<int>, first: int, last: int)
    | Complete(s: int)
    | TimerFires
    | SaveRequested
    | SaveRuns
    | SaveCompletes
    | AutosaveStops
    | PeerCheckpoint(saved: Option<CheckpointDict>)
  {
    /** The change to the completed sequences, if it is one. */
    function Entry(): Option<LedgerEvent>
    {
      match this
      case Repend(s) => Some(Pending(s))
      case Check(revs, first, last) => Some(Checked(first, last, revs))
      case Complete(s) => Some(Done(s))
      case _ => None
    }
  }

  // ---- Autosave as a value

  /** `timer` is None when autosave is off, and otherwise whether the timer is scheduled; `pendingSaves`
      counts the calls of save() that have not taken the lock yet. */
  datatype Autosave = Autosave(completed: Ranges, remote: RemoteSequence, timer: Option<bool>, changed: bool,
                               saving: bool, overdue: bool, pendingSaves: nat) {

    /** A change still to be saved will be: by the timer, by a call under way, or when the current save
        completes. */
    ghost predicate Valid()
    {
      && Canonical(completed) && Has(completed, 0)
      && (changed ==> timer.Some? && (saving || timer == Some(true) || pendingSaves > 0))
    }

    /** The document the checkpoint would be saved as. */
    ghost function Document(): CheckpointDict
      requires Canonical(completed) && Has(completed, 0)
    {
      LocalMinIsExact(completed);
      Save(completed, remote)
    }

    function Soon(): Autosave
    {
      if timer.None? then this else this.(changed := true, timer := if saving then timer else Some(true))
    }

    function Received(s: RemoteSequence): Autosave
    {
      if s == remote then this else this.(remote := s).Soon()
    }

    ghost function Reconciled(theirs: Ranges, theirRemote: RemoteSequence): Autosave
    {
      var s := this.(completed := Shared(completed, theirs), remote := KeptRemote(remote, theirRemote));
      if completed == theirs && s.remote == remote then s else s.Soon()
    }

    predicate Saves() { pendingSaves > 0 && changed && timer.Some? && !saving }

    function Ran(): Autosave
      requires pendingSaves > 0
    {
      var s := this.(pendingSaves := pendingSaves - 1);
      if Saves() then s.(changed := false, saving := true)
      else if changed && timer.Some? then s.(overdue := true)
      else s
    }

    function Over(): Autosave
    {
      if !saving then this
      else if overdue then this.(saving := false, pendingSaves := pendingSaves + 1)
      else if changed then this.(saving := false, timer := Some(true))
      else this.(saving := false)
    }

    ghost function Next(e: AutosaveEvent): Autosave
    {
      match e
      case RemoteMin(s) => Received(s)
      case Repend(_) => Entered(e.Entry().value)
      case Check(_, _, _) => Entered(e.Entry().value)
      case Complete(_) => Entered(e.Entry().value)
      case TimerFires => if timer == Some(true) then this.(timer := Some(false), pendingSaves := pendingSaves + 1) else this
      case SaveRequested => this.(pendingSaves := pendingSaves + 1)
      case SaveRuns => if pendingSaves > 0 then Ran() else this
      case SaveCompletes => Over()
      case AutosaveStops => this.(timer := None, changed := false)
      case PeerCheckpoint(saved) => Reconciled(Restore(saved), RestoredRemote(saved))
    }

    ghost function Entered(entry: LedgerEvent): Autosave
    {
      if entry.Sane() then this.(completed := Apply(completed, entry)).Soon() else this
    }
  }

  ghost function RunTo(s: Autosave, events: seq<AutosaveEvent>): Autosave
  {
    if events == [] then s else RunTo(s, events[..|events| - 1]).Next(events[|events| - 1])
  }

  /** The `i`th event hands out a document. */
  ghost predicate SavesAt(s: Autosave, events: seq<AutosaveEvent>, i: nat)
    requires i < |events|
  {
    events[i].SaveRuns? && RunTo(s, events[..i]).Saves()
  }

  lemma NextKeeps(s: Autosave, e: AutosaveEvent)
    requires s.Valid()
    ensures s.Next(e).Valid()
  {
    hide Has, Canonical, Apply, Shared, Restore, RestoredRemote, KeptRemote;
    if e.Entry().Some? && e.Entry().value.Sane() { ApplyCorrect(s.completed, e.Entry().value); }
    if e.PeerCheckpoint? {
      RestoreKeepsZero(e.saved);
      SharedCorrect(s.completed, Restore(e.saved));
    }
  }

  /** What an event does to the checkpoint, told by its sequences: a change of it does what it says, the checkpoint a
      peer has saved leaves what both have and the earlier remote sequence, and nothing else changes it. */
  ghost predicate Marks(s: Autosave, e: AutosaveEvent, s': Autosave)
  {
    match e
    case RemoteMin(remote) => s'.completed == s.completed && s'.remote == remote
    case Repend(q) => s'.remote == s.remote && forall t :: Has(s'.completed, t) <==> Has(s.completed, t) && !(0 < t == q)
    case Check(revs, first, last) =>
      && s'.remote == s.remote
      && if Checked(first, last, revs).Sane()
         then forall t :: Has(s'.completed, t) <==> t !in revs && (first <= t <= last || Has(s.completed, t))
         else s'.completed == s.completed
    case Complete(q) => s'.remote == s.remote && forall t :: Has(s'.completed, t) <==> Has(s.completed, t) || 0 < t == q
    case PeerCheckpoint(saved) =>
      && (forall t :: Has(s'.completed, t) <==> Has(s.completed, t) && Has(Restore(saved), t))
      && Reconciles(s.remote, RestoredRemote(saved), s'.remote)
    case _ => s'.completed == s.completed && s'.remote == s.remote
  }

  lemma NextMarks(s: Autosave, e: AutosaveEvent)
    requires s.Valid()
    ensures Marks(s, e, s.Next(e))
  {
    hide Has, Canonical, Apply, Shared, Restore, RestoredRemote, KeptRemote, Reconciles;
    match e
    case PeerCheckpoint(saved) =>
      RestoreKeepsZero(saved);
      SharedCorrect(s.completed, Restore(saved));
      KeptRemoteExactly(s.remote, RestoredRemote(saved));
    case Repend(q) => EntryMarks(s, Pending(q));
    case Check(revs, first, last) => EntryMarks(s, Checked(first, last, revs));
    case Complete(q) => EntryMarks(s, Done(q));
    case _ =>
  }

  lemma EntryMarks(s: Autosave, entry: LedgerEvent)
    requires s.Valid()
    ensures s.Entered(entry).remote == s.remote
    ensures if entry.Sane() then forall t :: Has(s.Entered(entry).completed, t) <==> entry.Settles(t, Has(s.completed, t))
            else s.Entered(entry).completed == s.completed
  {
    hide Has, Canonical, Apply, LedgerEvent.Sane, LedgerEvent.Settles;
    if entry.Sane() { ApplyCorrect(s.completed, entry); }
  }

  /** A change is marked, and the timer set unless a save is under way; without autosave nothing is. */
  ghost predicate Armed(s: Autosave, s': Autosave)
  {
    && s'.saving == s.saving && s'.overdue == s.overdue && s'.pendingSaves == s.pendingSaves
    && if s.timer.None? then s'.timer.None? && s'.changed == s.changed
       else s'.changed && s'.timer == if s.saving then s.timer else Some(true)
  }

  /** What an event does to the saving: the timer that fires and a request each become a call; a call that runs hands
      out a document, or is overdue while another save is under way; the end of a save makes an overdue one a call,
      and sets the timer for a change. */
  lemma NextSaves(s: Autosave, e: AutosaveEvent)
    requires s.Valid()
    ensures var s' := s.Next(e);
            match e
            case TimerFires => s.timer == Some(true) ==> s'.timer == Some(false) && s'.pendingSaves == s.pendingSaves + 1
            case SaveRequested => s'.pendingSaves == s.pendingSaves + 1
            case SaveRuns =>
              s.pendingSaves > 0 ==>
                && s'.pendingSaves == s.pendingSaves - 1 && (s.Saves() ==> s'.saving && !s'.changed)
                && (s.changed && s.saving ==> s'.overdue && s'.changed && s'.saving)
            case SaveCompletes =>
              && !s'.saving
              && (s.saving && s.overdue ==> s'.pendingSaves == s.pendingSaves + 1)
              && (s.saving && !s.overdue && s.changed ==> s'.timer == Some(true))
            case AutosaveStops => s'.timer == None && !s'.changed
            case RemoteMin(remote) => if remote == s.remote then s' == s else Armed(s, s')
            case PeerCheckpoint(saved) =>
              if Restore(saved) == s.completed && s'.remote == s.remote then s' == s else Armed(s, s')
            case _ => if e.Entry().value.Sane() then Armed(s, s') else s' == s
  {
    hide Has, Canonical, Apply, Shared, Restore, RestoredRemote, KeptRemote, LedgerEvent.Sane;
    if e.PeerCheckpoint? && s.completed == Restore(e.saved) { SharedSame(s.completed); }
  }

  lemma {:induction false} RunKeeps(s: Autosave, events: seq<AutosaveEvent>)
    requires s.Valid()
    ensures RunTo(s, events).Valid()
  {
    hide Autosave.Valid, Autosave.Next;
    if events != [] {
      RunKeeps(s, events[..|events| - 1]);
      NextKeeps(RunTo(s, events[..|events| - 1]), events[|events| - 1]);
    }
  }

  lemma RunMore(s: Autosave, events: seq<AutosaveEvent>, i: nat)
    requires i < |events|
    ensures RunTo(s, events[..i + 1]) == RunTo(s, events[..i]).Next(events[i])
  {
    assert events[..i + 1][..i] == events[..i];
  }

  /** A save that runs at `j` was let through by the completion of any that was under way at `i`. */
  lemma {:induction false} SavingUntil(s: Autosave, events: seq<AutosaveEvent>, i: nat, j: nat) returns (k: nat)
    requires i <= j < |events| && RunTo(s, events[..i]).saving && SavesAt(s, events, j)
    ensures i <= k < j && events[k].SaveCompletes?
    decreases j - i
  {
    hide Restore, RestoredRemote, KeptRemote, Apply, Shared, LedgerEvent.Sane;
    if events[i].SaveCompletes? && i < j {
      k := i;
    } else {
      RunMore(s, events, i);
      k := SavingUntil(s, events, i + 1, j);
    }
  }

  /** In every run a document is handed out only after the save before it completed. */
  lemma OneAtATime(s: Autosave, events: seq<AutosaveEvent>, i: nat, j: nat) returns (k: nat)
    requires i < j < |events| && SavesAt(s, events, i) && SavesAt(s, events, j)
    ensures i < k < j && events[k].SaveCompletes?
  {
    RunMore(s, events, i);
    k := SavingUntil(s, events, i + 1, j);
  }

  /** Whenever there is a change to save, the save needs nothing more from the callers: the client completes
      the current one, the timer fires, the call runs. */
  lemma SaveComes(s: Autosave) returns (events: seq<AutosaveEvent>)
    requires s.Valid() && s.changed
    ensures forall e :: e in events ==> e.SaveCompletes? || e.TimerFires? || e.SaveRuns?
    ensures events != [] && SavesAt(s, events, |events| - 1) && !RunTo(s, events).changed
    ensures RunTo(s, events[..|events| - 1]).Valid()
    ensures RunTo(s, events[..|events| - 1]).Document() == s.Document()
  {
    hide Has, Canonical, Save;
    var over := if s.saving then [SaveCompletes] else [];
    var t := s.Over();
    assert RunTo(s, over) == t by { assert [SaveCompletes][..0] == []; }
    var fire := if t.pendingSaves > 0 then [] else [TimerFires];
    var front := over + fire;
    assert RunTo(s, front) == if fire == [] then t else t.Next(TimerFires) by {
      if fire != [] { assert front[..|over|] == over; } else { assert front == over; }
    }
    events := front + [SaveRuns];
    assert events[..|front|] == front;
    RunKeeps(s, front);
  }

  /** The `j`th event hands out this document, the checkpoint of that moment. */
  ghost predicate HandedAt(s: Autosave, events: seq<AutosaveEvent>, document: CheckpointDict, j: nat)
  {
    && j < |events| && SavesAt(s, events, j)
    && RunTo(s, events[..j]).Valid() && document == RunTo(s, events[..j]).Document()
  }

  lemma SavesAtSame(s: Autosave, events: seq<AutosaveEvent>, i: nat, j: nat)
    requires j < i <= |events|
    ensures SavesAt(s, events[..i], j) <==> SavesAt(s, events, j)
    ensures RunTo(s, events[..i][..j]) == RunTo(s, events[..j])
  {
    assert events[..i][..j] == events[..j] && events[..i][j] == events[j];
  }

  /** `saves` are the documents the run hands out, in order, and `at` says by which events. */
  ghost predicate HandsOut(s: Autosave, events: seq<AutosaveEvent>, saves: seq<CheckpointDict>, at: seq<nat>)
  {
    && |at| == |saves|
    && (forall i :: 0 <= i < |at| ==> HandedAt(s, events, saves[i], at[i]))
    && (forall i, j :: 0 <= i < j < |at| ==> at[i] < at[j])
    && (forall j :: 0 <= j < |events| && SavesAt(s, events, j) ==> j in at)
  }

  /** One more event. */
  lemma HandsOutMore(s: Autosave, events: seq<AutosaveEvent>, i: nat, saves: seq<CheckpointDict>, at: seq<nat>)
    requires s.Valid() && i < |events| && HandsOut(s, events[..i], saves, at)
    ensures RunTo(s, events[..i]).Valid()
    ensures if SavesAt(s, events, i)
            then HandsOut(s, events[..i + 1], saves + [RunTo(s, events[..i]).Document()], at + [i])
            else HandsOut(s, events[..i + 1], saves, at)
  {
    hide RunTo, SavesAt, Autosave.Valid, Autosave.Document;
    RunKeeps(s, events[..i]);
    var es := events[..i + 1];
    forall j | 0 <= j < i
      ensures SavesAt(s, es, j) <==> SavesAt(s, events[..i], j)
      ensures RunTo(s, es[..j]) == RunTo(s, events[..i][..j])
    {
      SavesAtSame(s, events, i + 1, j);
      SavesAtSame(s, events, i, j);
    }
    SavesAtSame(s, events, i + 1, i);
  }

  /** A save completes between these two events. */
  ghost predicate CompletesBetween(events: seq<AutosaveEvent>, i: int, j: int)
  {
    exists k :: i < k < j && 0 <= k < |events| && events[k].SaveCompletes?
  }

  /** Each was handed out after the save before it completed, the first one after a save that was under way. */
  ghost predicate OneByOne(s: Autosave, events: seq<AutosaveEvent>, at: seq<nat>)
  {
    && (forall i, j :: 0 <= i < j < |at| ==> CompletesBetween(events, at[i], at[j]))
    && (s.saving && at != [] ==> CompletesBetween(events, -1, at[0]))
  }

  lemma HandedOutOneByOne(s: Autosave, events: seq<AutosaveEvent>, saves: seq<CheckpointDict>, at: seq<nat>)
    requires HandsOut(s, events, saves, at)
    ensures OneByOne(s, events, at)
  {
    hide RunTo, SavesAt, Autosave.Valid;
    forall i, j | 0 <= i < j < |at| ensures CompletesBetween(events, at[i], at[j]) {
      var _ := OneAtATime(s, events, at[i], at[j]);
    }
    if s.saving && at != [] {
      FromStart(s, events);
      var _ := SavingUntil(s, events, 0, at[0]);
    }
  }

  lemma FromStart(s: Autosave, events: seq<AutosaveEvent>)
    ensures RunTo(s, events[..0]) == s
  {
  }

  // ---- What is handed out can be read back

  /** The remote sequences an event brings were made from JSON values. */
  predicate FromValues(json: string -> bool, e: AutosaveEvent)
  {
    match e
    case RemoteMin(remote) => CanSave(json, remote)
    case PeerCheckpoint(saved) => saved.Some? && saved.value.remote.Some? ==> json(saved.value.remote.value)
    case _ => true
  }

  lemma {:induction false} RunCanSave(json: string -> bool, s: Autosave, events: seq<AutosaveEvent>)
    requires CanSave(json, s.remote) && forall i :: 0 <= i < |events| ==> FromValues(json, events[i])
    ensures CanSave(json, RunTo(s, events).remote)
  {
    hide CanSave, Apply, Shared, Restore, LedgerEvent.Sane, FromValue, KeptRemote;
    if events != [] {
      var k := |events| - 1;
      RunCanSave(json, s, events[..k]);
      var e, mine := events[k], RunTo(s, events[..k]).remote;
      var theirs := if e.PeerCheckpoint? then RestoredRemote(e.saved) else NullSequence;
      var text := if e.PeerCheckpoint? && e.saved.Some? && e.saved.value.remote.Some? then e.saved.value.remote.value
                  else "";
      NullCanSave(json);
      ValuesCanSave(json, text, mine, theirs);
      assert FromValues(json, e);
    }
  }

  lemma NullCanSave(json: string -> bool)
    ensures CanSave(json, NullSequence)
  {
  }

  /** Every document handed out in such a run is read back as the checkpoint it was made of. */
  lemma HandedOutRestores(json: string -> bool, s: Autosave, events: seq<AutosaveEvent>, i: nat)
    requires s.Valid() && CanSave(json, s.remote) && HasNumerals(json)
    requires forall i :: 0 <= i < |events| ==> FromValues(json, events[i])
    requires i < |events| && SavesAt(s, events, i)
    requires forall j :: 0 <= j < |RunTo(s, events[..i]).completed| ==> RunTo(s, events[..i]).completed[j].end < TWO_64
    ensures RunTo(s, events[..i]).Valid()
    ensures var t := RunTo(s, events[..i]);
            var root := t.Document().Parsed(json);
            Restore(root) == t.completed && RestoredRemote(root) == t.remote
  {
    hide RunTo, CanSave, Restore, RestoredRemote, Save, Has, Canonical, HasNumerals;
    RunKeeps(s, events[..i]);
    RunCanSave(json, s, events[..i]);
    var t := RunTo(s, events[..i]);
    SaveRestore(json, t.completed, t.remote);
  }

  // ---- The class

  class Checkpointer {
    const checkpoint: Checkpoint
    var timer: Option<bool>
    var changed: bool
    var saving: bool
    var overdueForSave: bool
    var pendingSaves: nat

    ghost var handedOut: CheckpointDict  // the JSON handed out last, or the state when autosave began

    ghost function State(): Autosave
      reads this, checkpoint
    {
      Autosave(checkpoint.completed, checkpoint.remote, timer, changed, saving, overdueForSave, pendingSaves)
    }

    /** No difference from the last document handed out is forgotten, and its save is coming. */
    ghost predicate Valid()
      reads this, checkpoint
    {
      State().Valid() && (timer.Some? && State().Document() != handedOut ==> changed)
    }

    constructor ()
      ensures Valid() && timer.None? && !saving && fresh(checkpoint)
    {
      checkpoint := new Checkpoint();
      timer, changed, saving, overdueForSave, pendingSaves := None, false, false, false, 0;
      handedOut := CheckpointDict(None, None, None);
    }

    /** A new timer, which is not scheduled. */
    method EnableAutosave()
      requires Valid()
      modifies this`timer, this`handedOut
      ensures State() == old(State()).(timer := Some(false))
      ensures Valid() <==> !changed || saving || pendingSaves > 0
      ensures handedOut == if old(timer).None? then State().Document() else old(handedOut)
    {
      if timer.None? { handedOut := State().Document(); }
      timer := Some(false);
    }

    method StopAutosave()
      requires Valid()
      modifies this`timer, this`changed
      ensures Valid() && State() == old(State()).Next(AutosaveStops)
    {
      timer, changed := None, false;
    }

    method SaveSoon()
      modifies this`timer, this`changed
      ensures State() == old(State()).Soon()
      ensures old(State().Valid()) ==> State().Valid()
    {
      if timer.Some? {
        changed := true;
        if !saving && !timer.value { timer := Some(true); }
      }
    }

    method SetRemoteMinSequence(s: RemoteSequence)
      requires Valid()
      modifies this`timer, this`changed, checkpoint`remote
      ensures Valid() && State() == old(State()).Next(RemoteMin(s))
    {
      var remoteChanged := checkpoint.SetRemoteMinSequence(s);
      if remoteChanged { SaveSoon(); }
    }

    method ValidateWith(peer: Checkpoint) returns (same: bool)
      requires Valid() && peer.Valid() && peer != checkpoint
      modifies this`timer, this`changed, checkpoint`completed, checkpoint`remote
      ensures Valid() && State() == old(State()).Reconciled(peer.completed, peer.remote)
      ensures same <==> old(checkpoint.completed) == peer.completed && checkpoint.remote == old(checkpoint.remote)
      ensures same ==> State() == old(State())
    {
      hide Has, Canonical, Shared, KeptRemote;
      if checkpoint.completed == peer.completed { SharedSame(checkpoint.completed); }
      same := checkpoint.ValidateWith(peer);
      if !same { SaveSoon(); }
    }

    method AddPendingSequence(s: int)
      requires Valid() && 0 < s
      modifies this`timer, this`changed, checkpoint
      ensures Valid() && State() == old(State()).Next(Repend(s))
    {
      hide Has, Canonical, Apply;
      checkpoint.AddPendingSequence(s);
      SaveSoon();
    }

    method AddPendingSequences(revs: seq<int>, first: int, last: int)
      requires Valid() && Checked(first, last, revs).Sane()
      modifies this`timer, this`changed, checkpoint
      ensures Valid() && State() == old(State()).Next(Check(revs, first, last))
    {
      hide Has, Canonical, Apply;
      checkpoint.AddPendingSequences(revs, first, last);
      SaveSoon();
    }

    method CompletedSequence(s: int)
      requires Valid() && 0 < s
      modifies this`timer, this`changed, checkpoint`completed
      ensures Valid() && State() == old(State()).Next(Complete(s))
    {
      hide Has, Canonical, Apply;
      checkpoint.CompletedSequence(s);
      SaveSoon();
    }

    method TimerFires()
      requires Valid() && timer == Some(true)
      modifies this`timer, this`pendingSaves
      ensures Valid() && State() == old(State()).Next(AutosaveEvent.TimerFires)
    {
      timer, pendingSaves := Some(false), pendingSaves + 1;
    }

    method SaveRequested()
      requires Valid()
      modifies this`pendingSaves
      ensures Valid() && State() == old(State()).Next(AutosaveEvent.SaveRequested)
    {
      pendingSaves := pendingSaves + 1;
    }

    /** The body of save(): hands out the current JSON, unless nothing changed or a save is
        outstanding. */
    method RunSave() returns (json: Option<CheckpointDict>)
      requires Valid() && pendingSaves > 0
      modifies this`pendingSaves, this`overdueForSave, this`changed, this`saving, this`handedOut
      ensures Valid() && State() == old(State()).Next(SaveRuns)
      ensures json == if old(State().Saves()) then Some(State().Document()) else None
      ensures handedOut == if json.Some? then json.value else old(handedOut)
    {
      pendingSaves := pendingSaves - 1;
      json := None;
      if changed && timer.Some? {
        if saving {
          overdueForSave := true;
        } else {
          changed, saving := false, true;
          var d := checkpoint.ToJSON();
          json := Some(d);
          handedOut := d;
        }
      }
    }

    method SaveCompleted()
      requires Valid()
      modifies this`saving, this`timer, this`pendingSaves
      ensures Valid() && State() == old(State()).Next(SaveCompletes)
    {
      if saving {
        saving := false;
        if overdueForSave {
          pendingSaves := pendingSaves + 1;
        } else if changed {
          timer := Some(true);
        }
      }
    }

    /** Once nothing is unsaved, the last JSON handed out is the checkpoint and its save is over. */
    method IsUnsaved() returns (b: bool)
      requires Valid()
      ensures b <==> changed || saving
      ensures !b && timer.Some? ==> handedOut == State().Document()
    {
      b := changed || saving;
    }

    method Step(e: AutosaveEvent) returns (json: Option<CheckpointDict>)
      requires Valid()
      modifies this, checkpoint
      ensures Valid() && State() == old(State()).Next(e)
      ensures json == if e.SaveRuns? && old(State().Saves()) then Some(old(State().Document())) else None
      ensures handedOut == if json.Some? then json.value else old(handedOut)
    {
      hide Has, Canonical, Restore, RestoredRemote, Apply, Shared, KeptRemote, Save;
      json := None;
      match e
      case RemoteMin(s) => SetRemoteMinSequence(s);
      case Repend(s) => if 0 < s { AddPendingSequence(s); }
      case Check(revs, first, last) =>
        if 0 < first <= last + 1 && forall i :: 0 <= i < |revs| ==> 0 < revs[i] {
          AddPendingSequences(revs, first, last);
        }
      case Complete(s) => if 0 < s { CompletedSequence(s); }
      case TimerFires => if timer == Some(true) { TimerFires(); }
      case SaveRequested => SaveRequested();
      case SaveRuns => if pendingSaves > 0 { json := RunSave(); }
      case SaveCompletes => SaveCompleted();
      case AutosaveStops => StopAutosave();
      case PeerCheckpoint(saved) =>
        var peer := new Checkpoint();
        peer.ReadDict(saved);
        var _ := ValidateWith(peer);
    }

    /** In every run: the documents handed out, in order, each only after the save before it completed. The
        last one is the checkpoint as it is now, or a change is marked and its save is coming. */
    method Run(events: seq<AutosaveEvent>) returns (saves: seq<CheckpointDict>, ghost at: seq<nat>)
      requires Valid()
      modifies this, checkpoint
      ensures Valid() && State() == RunTo(old(State()), events)
      ensures HandsOut(old(State()), events, saves, at) && OneByOne(old(State()), events, at)
      ensures handedOut == if saves == [] then old(handedOut) else saves[|saves| - 1]
      ensures timer.Some? && State().Document() != handedOut ==> saving || timer == Some(true) || pendingSaves > 0
    {
      hide RunTo, HandsOut, OneByOne, Autosave.Next, Autosave.Saves, Autosave.Document;
      saves, at := [], [];
      assert events[..0] == [];
      NothingHandedOut(State(), events);
      for i := 0 to |events|
        invariant Valid() && State() == RunTo(old(State()), events[..i])
        invariant HandsOut(old(State()), events[..i], saves, at)
        invariant handedOut == if saves == [] then old(handedOut) else saves[|saves| - 1]
      {
        RunMore(old(State()), events, i);
        HandsOutMore(old(State()), events, i, saves, at);
        var json := Step(events[i]);
        if json.Some? {
          saves, at := saves + [json.value], at + [i];
        }
      }
      assert events[..|events|] == events;
      HandedOutOneByOne(old(State()), events, saves, at);
    }
  }

  lemma NothingHandedOut(s: Autosave, events: seq<AutosaveEvent>)
    ensures RunTo(s, events[..0]) == s && HandsOut(s, events[..0], [], [])
  {
  }
}
