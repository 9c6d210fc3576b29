/**
 * The lifecycle of a single record: the states a record passes through
 * (clean, new, updated, deleted, invalid, in flight) and the events that
 * move it from one state to the next.  Every transition is a partial
 * function: `None` stands for an event the current state does not handle,
 * which the store reports as an error.
 */
module RecordState {
  import opened Common

  datatype State =
    | Clean                    // loaded, no local change
    | Created(inFlight: bool)  // created locally, not yet known to the backend
    | Updated(inFlight: bool)  // loaded, then changed locally
    | Invalid(isNew: bool)     // the backend rejected the pending create or update
    | Deleted(inFlight: bool)  // marked for deletion
    | DeletedSaved             // gone: deletion committed, or a new record rolled back

  /** The operation a commit asks the adapter to perform for a record. */
  datatype Op = Create | Update | Delete

  /** `isDirty`: the record has a change that the backend has not acknowledged. */
  predicate IsDirty(s: State) { !(s.Clean? || s.DeletedSaved?) }

  /** `isNew`: the record has never been saved to the backend; such a record always has a change pending. */
  predicate IsNew(s: State): (r: bool)
    ensures r ==> IsDirty(s) && !IsDeleted(s)
  {
    s.Created? || (s.Invalid? && s.isNew)
  }

  /** `isDeleted`: a deleted record was saved once, and a deletion is never rejected. */
  predicate IsDeleted(s: State): (r: bool)
    ensures r ==> IsValid(s)
  {
    s.Deleted? || s.DeletedSaved?
  }

  /** `isValid`: the backend has not rejected the record's pending write; a rejected record stays dirty. */
  predicate IsValid(s: State): (r: bool)
    ensures !r ==> IsDirty(s)
  {
    !s.Invalid?
  }

  /** A commit request for the record has been sent and not yet answered: it is dirty and not rejected. */
  predicate IsInFlight(s: State): (r: bool)
    ensures r ==> IsDirty(s) && IsValid(s)
  {
    (s.Created? && s.inFlight) || (s.Updated? && s.inFlight) || (s.Deleted? && s.inFlight)
  }

  /** Writing an attribute or a relationship of the record (`record.set`). */
  function SetProperty(s: State): (r: Option<State>)
    ensures r.Some? <==> !IsDeleted(s) && !IsInFlight(s)
    ensures r.Some? ==> IsDirty(r.value) && !IsInFlight(r.value) && !IsDeleted(r.value)
    ensures r.Some? ==> IsNew(r.value) == IsNew(s) && IsValid(r.value) == IsValid(s)
  {
    match s
    case Clean => Some(Updated(false))
    case Created(f) => if f then None else Some(s)
    case Updated(f) => if f then None else Some(s)
    case Invalid(_) => Some(s)
    case Deleted(_) => None
    case DeletedSaved => None
  }

  /** `record.deleteRecord()`: only a saved record with no commit in progress can be deleted. */
  function DeleteRecord(s: State): (r: Option<State>)
    ensures r.Some? <==> s == Clean || s == Updated(false)
    ensures r.Some? ==> IsDeleted(r.value) && IsDirty(r.value) && !IsNew(r.value)
    ensures r.Some? ==> IsValid(r.value) && !IsInFlight(r.value)
  {
    match s
    case Clean => Some(Deleted(false))
    case Updated(f) => if f then None else Some(Deleted(false))
    case _ => None
  }

  /** `record.send('willCommit')`: a dirty record that is not in flight is sent to the adapter. */
  function WillCommit(s: State): (r: Option<State>)
    ensures r.Some? <==> IsDirty(s) && !IsInFlight(s)
    ensures r.Some? ==> IsInFlight(r.value) && IsValid(r.value)
    ensures r.Some? ==> IsNew(r.value) == IsNew(s) && IsDeleted(r.value) == IsDeleted(s)
  {
    match s
    case Created(f) => if f then None else Some(Created(true))
    case Updated(f) => if f then None else Some(Updated(true))
    case Deleted(f) => if f then None else Some(Deleted(true))
    case Invalid(n) => if n then Some(Created(true)) else Some(Updated(true))
    case _ => None
  }

  /** Which adapter batch a commit puts the record in, if any. */
  function CommitOp(s: State): (r: Option<Op>)
    ensures r.Some? <==> WillCommit(s).Some?
    ensures r == Some(Create) <==> WillCommit(s).Some? && IsNew(s)
    ensures r == Some(Delete) <==> WillCommit(s).Some? && IsDeleted(s)
  {
    if WillCommit(s).None? then None
    else if IsNew(s) then Some(Create)
    else if IsDeleted(s) then Some(Delete)
    else Some(Update)
  }

  /** The state a commit leaves a record in: dirty records go in flight, the others stay as they are. */
  function CommitState(s: State): (r: State)
    ensures IsDirty(r) <==> IsDirty(s)
    ensures IsDirty(s) ==> IsInFlight(r)
    ensures !IsDirty(s) ==> r == s
  {
    match WillCommit(s)
    case Some(f) => f
    case None => s
  }

  /** The adapter acknowledged the record's commit (`didCreateRecord`, `didSaveRecord`, ...). */
  function DidCommit(s: State): (r: Option<State>)
    ensures r.Some? <==> IsInFlight(s)
    ensures r.Some? ==> !IsDirty(r.value) && IsDeleted(r.value) == IsDeleted(s)
  {
    match s
    case Created(f) => if f then Some(Clean) else None
    case Updated(f) => if f then Some(Clean) else None
    case Deleted(f) => if f then Some(DeletedSaved) else None
    case _ => None
  }

  /** `store.recordWasInvalid`: the backend rejected a pending create or update. */
  function BecameInvalid(s: State): (r: Option<State>)
    ensures r.Some? <==> s.Created? || s.Updated?
    ensures r.Some? ==> !IsValid(r.value) && IsDirty(r.value) && IsNew(r.value) == IsNew(s)
  {
    match s
    case Created(_) => Some(Invalid(true))
    case Updated(_) => Some(Invalid(false))
    case _ => None
  }

  /**
   * Rolling the record back: an updated, deleted or invalid record becomes clean
   * again, a record that was never saved ends up deleted.  A record in flight is
   * left alone.
   */
  function Rollback(s: State): (r: Option<State>)
    ensures r.Some? <==> !IsInFlight(s)
    ensures r.Some? ==> !IsDirty(r.value) && IsValid(r.value)
    ensures r.Some? ==> (IsDeleted(r.value) <==> IsNew(s) || s == DeletedSaved)
  {
    match s
    case Clean => Some(Clean)
    case Created(f) => if f then None else Some(DeletedSaved)
    case Updated(f) => if f then None else Some(Clean)
    case Invalid(n) => if n then Some(DeletedSaved) else Some(Clean)
    case Deleted(f) => if f then None else Some(Clean)
    case DeletedSaved => Some(DeletedSaved)
  }

  /** A local edit a program makes to a record between two commits. */
  datatype Edit = SetAttribute | DeleteIt

  function ApplyEdit(s: State, e: Edit): Option<State> {
    match e
    case SetAttribute => SetProperty(s)
    case DeleteIt => DeleteRecord(s)
  }

  /** Applies a sequence of edits, failing as soon as one of them is not handled. */
  function ApplyEdits(s: State, edits: seq<Edit>): Option<State>
    decreases |edits|
  {
    if edits == [] then Some(s)
    else match ApplyEdit(s, edits[0])
      case None => None
      case Some(s') => ApplyEdits(s', edits[1..])
  }

  /**
   * Local edits never change what a rollback produces: after any accepted
   * sequence of writes and deletes, rolling back gives the same state as
   * rolling back before them.
   */
  lemma {:induction false} EditsDoNotChangeRollback(s: State, edits: seq<Edit>)
    requires ApplyEdits(s, edits).Some?
    ensures Rollback(ApplyEdits(s, edits).value) == Rollback(s)
    decreases |edits|
  {
    if edits != [] {
      var s' := ApplyEdit(s, edits[0]).value;
      EditsDoNotChangeRollback(s', edits[1..]);
    }
  }

  /** A commit that is acknowledged always leaves the record clean, or deleted for good. */
  lemma CommitCycleCleans(s: State)
    requires IsDirty(s) && !IsInFlight(s)
    ensures DidCommit(CommitState(s)).Some?
    ensures var r := DidCommit(CommitState(s)).value;
      !IsDirty(r) && IsValid(r) && IsDeleted(r) == IsDeleted(s)
  {
  }
}
