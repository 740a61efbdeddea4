/** Replicator/Inserter.cc: a batch of revisions is inserted in one transaction, and the owner of each is
    told how it went. */
module Inserters {
  import opened Common

  datatype Domain = LiteCore | OtherDomain

  /** A `C4Error`; code 0 is no error. */
  datatype Error = Error(domain: Domain, code: int)

  const NO_ERROR := Error(OtherDomain, 0)
  const DELTA_BASE_UNKNOWN := 31
  const CORRUPT_DELTA := 32

  predicate IsDeltaError(e: Error) { e == Error(LiteCore, DELTA_BASE_UNKNOWN) || e == Error(LiteCore, CORRUPT_DELTA) }

  /** What `insertRevisionNow` reports. */
  datatype Outcome = Saved | Failed(error: Error)

  /** An exception out of the transaction at revision `at`: before its owner was told anything, or `late`,
      between that and the next revision. Beyond the last revision it is the commit that fails. */
  datatype Thrown = Thrown(at: nat, late: bool, error: Error)

  class RevToInsert {
    var error: Error
    var errorIsTransient: bool
    var provisional: nat     // how often the owner was told of a provisional insertion
    var inserted: nat        // how often it was told that the insertion is over

    constructor ()
      ensures error == NO_ERROR && !errorIsTransient && provisional == 0 && inserted == 0
    {
      error, errorIsTransient, provisional, inserted := NO_ERROR, false, 0, 0;
    }

    ghost function Told(): Report
      reads this
    {
      Report(error, errorIsTransient, provisional, inserted)
    }
  }

  /** What an owner has been told. */
  datatype Report = Report(error: Error, errorIsTransient: bool, provisional: nat, inserted: nat)

  const UNTOLD := Report(NO_ERROR, false, 0, 0)

  /** Whether the loop got so far as to tell the owner of revision `i`. */
  predicate Reached(thrown: Option<Thrown>, i: nat)
  {
    thrown.None? || i < thrown.value.at || (i == thrown.value.at && thrown.value.late)
  }

  /** After the first loop. */
  function Tried(o: Outcome): Report
  {
    match o
    case Saved => UNTOLD.(provisional := 1)
    case Failed(e) => Report(e, IsDeltaError(e), 0, 1)
  }

  /** After the second. */
  function Told(r: Report, transactionErr: Error): Report
  {
    if r.error.code == 0 then r.(error := transactionErr, inserted := r.inserted + 1) else r
  }

  function TransactionError(thrown: Option<Thrown>): Error { if thrown.Some? then thrown.value.error else NO_ERROR }

  /** What the owner of revision `i` has been told in the end. */
  function Outcomes(o: Outcome, thrown: Option<Thrown>, i: nat): Report
  {
    Told(if Reached(thrown, i) then Tried(o) else UNTOLD, TransactionError(thrown))
  }

  ghost predicate Apart(revs: seq<RevToInsert>) { forall i, j :: 0 <= i < j < |revs| ==> revs[i] != revs[j] }

  /** `_insertRevisionsNow` */
  method InsertRevisionsNow(revs: seq<RevToInsert>, outcomes: seq<Outcome>, thrown: Option<Thrown>)
    returns (transactionErr: Error)
    requires Apart(revs) && |outcomes| == |revs|
    requires forall i :: 0 <= i < |revs| ==> revs[i].Told() == UNTOLD
    modifies revs
    ensures transactionErr == TransactionError(thrown)
    ensures forall i :: 0 <= i < |revs| ==> revs[i].Told() == Outcomes(outcomes[i], thrown, i)
  {
    transactionErr := InsertAll(revs, outcomes, thrown);
    for i := 0 to |revs|
      invariant forall k :: 0 <= k < i ==> revs[k].Told() == Outcomes(outcomes[k], thrown, k)
      invariant forall k :: i <= k < |revs| ==>
                  revs[k].Told() == if Reached(thrown, k) then Tried(outcomes[k]) else UNTOLD
    {
      var rev := revs[i];
      if rev.error.code == 0 {
        rev.error := transactionErr;
        rev.inserted := rev.inserted + 1;
      }
    }
  }

  /** The transaction. */
  method InsertAll(revs: seq<RevToInsert>, outcomes: seq<Outcome>, thrown: Option<Thrown>) returns (transactionErr: Error)
    requires Apart(revs) && |outcomes| == |revs|
    requires forall i :: 0 <= i < |revs| ==> revs[i].Told() == UNTOLD
    modifies revs
    ensures transactionErr == TransactionError(thrown)
    ensures forall k :: 0 <= k < |revs| ==>
              revs[k].Told() == if Reached(thrown, k) then Tried(outcomes[k]) else UNTOLD
  {
    for i := 0 to |revs|
      invariant thrown.Some? ==> i <= thrown.value.at
      invariant forall k :: 0 <= k < i ==> revs[k].Told() == Tried(outcomes[k])
      invariant forall k :: i <= k < |revs| ==> revs[k].Told() == UNTOLD
    {
      if thrown.Some? && thrown.value.at == i && !thrown.value.late { return thrown.value.error; }
      var rev := revs[i];
      match outcomes[i] {
        case Saved => rev.provisional := rev.provisional + 1;
        case Failed(e) =>
          rev.error := e;
          if IsDeltaError(e) { rev.errorIsTransient := true; }
          rev.inserted := rev.inserted + 1;
      }
      if thrown.Some? && thrown.value.at == i { return thrown.value.error; }
    }
    return TransactionError(thrown);
  }

  /** Every owner is told exactly once, exactly if no insertion that was tried failed with code 0. */
  lemma ToldOnce(outcomes: seq<Outcome>, thrown: Option<Thrown>)
    ensures (forall i :: 0 <= i < |outcomes| ==> Outcomes(outcomes[i], thrown, i).inserted == 1)
       <==> (forall i :: 0 <= i < |outcomes| && Reached(thrown, i) && outcomes[i].Failed? ==> outcomes[i].error.code != 0)
  {
    forall i | 0 <= i < |outcomes|
      ensures Outcomes(outcomes[i], thrown, i).inserted == 1
         <==> (Reached(thrown, i) && outcomes[i].Failed? ==> outcomes[i].error.code != 0)
    {
    }
  }

  /** An insertion that failed without saying why is reported twice, the second time as a success. */
  lemma ToldTwice()
    ensures Outcomes(Failed(NO_ERROR), None, 0) == Report(NO_ERROR, false, 0, 2)
  {
  }

  /** The error an owner is given is zero exactly if its revision was saved and the transaction committed;
      and then only it was told before, provisionally. */
  lemma ErrorIsExact(o: Outcome, thrown: Option<Thrown>, i: nat)
    requires o.Failed? ==> o.error.code != 0
    requires thrown.Some? ==> thrown.value.error.code != 0
    ensures Outcomes(o, thrown, i).error.code == 0 <==> o.Saved? && thrown.None?
    ensures Outcomes(o, thrown, i).provisional == if o.Saved? && Reached(thrown, i) then 1 else 0
    ensures Outcomes(o, thrown, i).errorIsTransient <==> o.Failed? && Reached(thrown, i) && IsDeltaError(o.error)
  {
  }
}
