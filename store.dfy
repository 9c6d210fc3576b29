/**
 * The record store and its transactions.  The store owns every record, a
 * default transaction that holds every record no explicit transaction has
 * claimed, the identity map from (type, id) to record, the current parent of
 * every child under each has-many association and the pending relationship
 * changes.  A pending change belongs to the transaction that owns its child
 * record, so moving a clean record between transactions carries its changes
 * along.  The adapter is represented by the list of commit requests it has
 * received.
 */
module Transactions {
  import opened Common
  import opened RecordState
  import Rel = Relationships

  type TypeName = string
  type Id = nat

  /** The identity-map key of a saved record. */
  datatype Key = Key(typeName: TypeName, id: Id)

  /** A child record under one of its parents' has-many associations. */
  datatype Slot = Slot(child: Record, association: string)

  /** A has-many entry of loaded data: the child with key `child` is under `association`. */
  datatype Link = Link(association: string, child: Key)

  datatype Failure =
    | MembershipConflict   // a dirty record cannot move to another transaction
    | UnhandledEvent       // the record's state does not accept the event

  /** What one commit hands to the adapter, grouped by operation. */
  datatype CommitRequest = CommitRequest(
    created: set<Record>,
    updated: set<Record>,
    deleted: set<Record>,
    relationships: map<Slot, Rel.Change<Record>>)
  {
    predicate IsEmpty() {
      created == {} && updated == {} && deleted == {} && relationships == map[]
    }

    function Batch(op: Op): set<Record> {
      match op
      case Create => created
      case Update => updated
      case Delete => deleted
    }
  }

  /** A transaction is an ownership scope; its members are the records that point to it. */
  class Transaction {
    constructor ()
    {
    }
  }

  class Record {
    const typeName: TypeName
    var id: Option<Id>
    var state: State
    var attributes: map<string, Json>   // current values
    var data: map<string, Json>         // last loaded or committed values, restored on rollback
    var errors: map<string, string>     // validation errors reported by the backend
    var transaction: Transaction

    constructor (typeName: TypeName, id: Option<Id>, state: State, attributes: map<string, Json>,
                 data: map<string, Json>, transaction: Transaction)
      ensures this.typeName == typeName && this.id == id && this.state == state
      ensures this.attributes == attributes && this.data == data && this.errors == map[]
      ensures this.transaction == transaction
    {
      this.typeName := typeName;
      this.id := id;
      this.state := state;
      this.attributes := attributes;
      this.data := data;
      this.errors := map[];
      this.transaction := transaction;
    }

    /** `record.get(name)` */
    function Get(name: string): Json
      reads this`attributes
    {
      if name in attributes then attributes[name] else JUndefined
    }
  }

  /** The record types of a batch: the default adapter makes one call per type. */
  function TypesOf(rs: set<Record>): (ts: set<TypeName>)
    ensures forall r :: r in rs ==> r.typeName in ts
    ensures forall ty :: ty in ts ==> exists r :: r in rs && r.typeName == ty
  {
    set r | r in rs :: r.typeName
  }

  /** A batch never needs more per-type calls than it has records, and needs one as soon as it has a record. */
  lemma {:induction false} TypesOfBound(rs: set<Record>)
    ensures |TypesOf(rs)| <= |rs|
    ensures TypesOf(rs) == {} <==> rs == {}
    decreases |rs|
  {
    if rs != {} {
      var r :| r in rs;
      assert r.typeName in TypesOf(rs);
      TypesOfBound(rs - {r});
      assert TypesOf(rs) == TypesOf(rs - {r}) + {r.typeName};
    }
  }

  /** Number of records the adapter was asked to handle with `op` (`createRecord`, ... calls). */
  function RecordCalls(sent: seq<CommitRequest>, op: Op): (n: nat)
    ensures n == 0 <==> forall i :: 0 <= i < |sent| ==> sent[i].Batch(op) == {}
    decreases |sent|
  {
    if sent == [] then 0
    else RecordCalls(sent[..|sent| - 1], op) + |sent[|sent| - 1].Batch(op)|
  }

  /** Number of per-type batch calls (`createRecords`, `updateRecords`, `deleteRecords`) for `op`. */
  function BatchCalls(sent: seq<CommitRequest>, op: Op): (n: nat)
    ensures n <= RecordCalls(sent, op)
    ensures n == 0 <==> RecordCalls(sent, op) == 0
    decreases |sent|
  {
    if sent == [] then 0
    else
      TypesOfBound(sent[|sent| - 1].Batch(op));
      BatchCalls(sent[..|sent| - 1], op) + |TypesOf(sent[|sent| - 1].Batch(op))|
  }

  /** The request that commits `r` alone. */
  function RequestFor(r: Record): (req: CommitRequest)
    reads r
    ensures !req.IsEmpty() <==> WillCommit(r.state).Some?
    ensures forall op :: req.Batch(op) == if CommitOp(r.state) == Some(op) then {r} else {}
  {
    CommitRequest(
      if CommitOp(r.state) == Some(Create) then {r} else {},
      if CommitOp(r.state) == Some(Update) then {r} else {},
      if CommitOp(r.state) == Some(Delete) then {r} else {},
      map[])
  }

  /** Appending one request to the log adds its batch to both counts. */
  lemma CallsAfterSend(sent: seq<CommitRequest>, req: CommitRequest, op: Op)
    ensures RecordCalls(sent + [req], op) == RecordCalls(sent, op) + |req.Batch(op)|
    ensures BatchCalls(sent + [req], op) == BatchCalls(sent, op) + |TypesOf(req.Batch(op))|
  {
    assert (sent + [req])[..|sent|] == sent;
  }

  class Store {
    var defaultTransaction: Transaction
    var records: set<Record>
    var index: map<Key, Record>
    var parentOf: map<Slot, Record>
    var changes: map<Slot, Rel.Change<Record>>
    /** The parents as they were last loaded, committed or rolled back. */
    ghost var baseline: map<Slot, Record>
    /** The commit requests the adapter has received, oldest first. */
    var sent: seq<CommitRequest>

    ghost predicate Valid()
      reads this`records, this`index, this`parentOf, this`changes, this`baseline, records`id
    {
      && (forall k :: k in index ==> index[k] in records && index[k].typeName == k.typeName && index[k].id == Some(k.id))
      && (forall s :: s in changes ==> s.child in records)
      && Rel.Tracks(baseline, Rel.Tracker(parentOf, changes))
    }

    constructor ()
      ensures Valid() && fresh(defaultTransaction)
      ensures records == {} && index == map[] && parentOf == map[] && changes == map[] && sent == []
    {
      defaultTransaction := new Transaction();
      records := {};
      index := map[];
      parentOf := map[];
      changes := map[];
      baseline := map[];
      sent := [];
    }

    /** `store.transaction()`: a new transaction that owns no record yet. */
    method NewTransaction() returns (t: Transaction)
      ensures fresh(t)
    {
      t := new Transaction();
    }

    /** `transaction.get('relationships')`: the pending changes whose child the transaction owns. */
    function Relationships(t: Transaction): (r: map<Slot, Rel.Change<Record>>)
      requires Valid()
      reads this`records, this`index, this`parentOf, this`changes, this`baseline, records`id, records`transaction
      ensures r.Keys <= changes.Keys
      ensures forall s :: s in r ==> s.child.transaction == t && r[s] == changes[s]
      ensures forall s :: s in changes && s.child.transaction == t ==> s in r
    {
      map s | s in changes && s.child.transaction == t :: changes[s]
    }

    /**
     * The relationships of `t` whose child is not in flight: the changes a
     * commit of `t` sends and a rollback of `t` undoes.  A change stays pending
     * while its child is in flight and is settled when the child is acknowledged.
     */
    function Unsent(t: Transaction): (r: map<Slot, Rel.Change<Record>>)
      requires Valid()
      reads this`records, this`index, this`parentOf, this`changes, this`baseline, records`id, records`transaction,
        records`state
      ensures r.Keys <= Relationships(t).Keys
      ensures forall s :: s in Relationships(t) ==> (s in r <==> !IsInFlight(s.child.state))
      ensures forall s :: s in r ==> r[s] == changes[s]
    {
      map s | s in changes && s.child.transaction == t && !IsInFlight(s.child.state) :: changes[s]
    }

    /** What committing `t` now would hand to the adapter. */
    function PendingRequest(t: Transaction): (req: CommitRequest)
      requires Valid()
      reads this`records, this`index, this`parentOf, this`changes, this`baseline, records`id, records`transaction,
        records`state
      ensures forall r :: r in records && r.transaction == t ==>
        (r in req.created <==> CommitOp(r.state) == Some(Create)) &&
        (r in req.updated <==> CommitOp(r.state) == Some(Update)) &&
        (r in req.deleted <==> CommitOp(r.state) == Some(Delete))
      ensures forall r :: r in req.created + req.updated + req.deleted ==> r in records && r.transaction == t
      ensures req.relationships == Unsent(t)
    {
      CommitRequest(
        (set r | r in records && r.transaction == t && CommitOp(r.state) == Some(Create)),
        (set r | r in records && r.transaction == t && CommitOp(r.state) == Some(Update)),
        (set r | r in records && r.transaction == t && CommitOp(r.state) == Some(Delete)),
        Unsent(t))
    }

    /** In a store whose only record is `r` and that has no pending relationship change, committing `t` sends `r` or nothing. */
    lemma PendingOfOnlyRecord(t: Transaction, r: Record)
      requires Valid() && records == {r} && changes == map[]
      ensures PendingRequest(t) == if r.transaction == t then RequestFor(r) else CommitRequest({}, {}, {}, map[])
    {
      assert Unsent(t) == map[];
    }

    /** When `t` owns the child of every pending change, all of them are its relationships. */
    lemma RelationshipsWhenOwned(t: Transaction)
      requires Valid() && forall s :: s in changes ==> s.child.transaction == t
      ensures Relationships(t) == changes
    {
    }

    /**
     * The relationships of `t` are the net moves of its children: a child of `t`
     * has a change exactly when its parent differs from its baseline parent, and
     * the change goes from the baseline parent to the current one.
     */
    lemma RelationshipsAreNetMoves(t: Transaction, s: Slot)
      requires Valid() && s.child.transaction == t
      ensures Rel.Lookup(Relationships(t), s) ==
        if Rel.Lookup(baseline, s) == Rel.Lookup(parentOf, s) then None
        else Some(Rel.Change(Rel.Lookup(baseline, s), Rel.Lookup(parentOf, s)))
    {
      if s !in baseline.Keys + parentOf.Keys + changes.Keys {
        assert Rel.Lookup(changes, s) == None;
      }
    }

    /** `store.find(type, id)`: the loaded record with that identity, if any. */
    function Find(typeName: TypeName, id: Id): (r: Option<Record>)
      requires Valid()
      reads this, records
      ensures r.Some? <==> Key(typeName, id) in index
      ensures r.Some? ==> r.value in records && r.value.typeName == typeName && r.value.id == Some(id)
    {
      if Key(typeName, id) in index then Some(index[Key(typeName, id)]) else None
    }

    /** The slots that the has-many entries of loaded data put under a parent. */
    function LinkedSlots(links: seq<Link>): set<Slot>
      reads this`index
    {
      set l | l in links && l.child in index :: Slot(index[l.child], l.association)
    }

    /**
     * `store.load(type, data)`: inserts the record in state clean, owned by the
     * default transaction, or refreshes the loaded data of the record already
     * there (its current values too when it has no local change).  The has-many
     * entries of the data put each loaded child under the record.
     */
    method Load(typeName: TypeName, id: Id, attrs: map<string, Json>, links: seq<Link>) returns (r: Record)
      requires Valid()
      modifies this`records, this`index, this`parentOf, this`changes, this`baseline, records`data, records`attributes
      ensures Valid()
      ensures r in records && index == old(index)[Key(typeName, id) := r]
      ensures r.typeName == typeName && r.id == Some(id) && r.data == attrs
      ensures Key(typeName, id) !in old(index) ==>
        && fresh(r) && records == old(records) + {r}
        && r.state == Clean && r.attributes == attrs && r.errors == map[]
        && r.transaction == defaultTransaction
      ensures Key(typeName, id) in old(index) ==>
        && r == old(index[Key(typeName, id)]) && records == old(records)
        && r.attributes == (if r.state == Clean then attrs else old(r.attributes))
      ensures forall x :: x in old(records) && x != r ==> unchanged(x)
      ensures parentOf == Rel.AssignAll(old(parentOf), LinkedSlots(links), r)
      ensures changes == old(changes) - LinkedSlots(links)
      ensures links == [] ==> parentOf == old(parentOf) && changes == old(changes)
    {
      r := Upsert(typeName, id, attrs);
      LinkChildren(LinkedSlots(links), r);
      if links == [] {
        assert LinkedSlots(links) == {};
        Rel.AssignNothing(old(parentOf), r);
      }
    }

    /** The record side of a load. */
    method Upsert(typeName: TypeName, id: Id, attrs: map<string, Json>) returns (r: Record)
      requires Valid()
      modifies this`records, this`index, records`data, records`attributes
      ensures Valid()
      ensures r in records && index == old(index)[Key(typeName, id) := r]
      ensures r.typeName == typeName && r.id == Some(id) && r.data == attrs
      ensures Key(typeName, id) !in old(index) ==>
        && fresh(r) && records == old(records) + {r}
        && r.state == Clean && r.attributes == attrs && r.errors == map[]
        && r.transaction == defaultTransaction
      ensures Key(typeName, id) in old(index) ==>
        && r == old(index[Key(typeName, id)]) && records == old(records)
        && r.attributes == (if r.state == Clean then attrs else old(r.attributes))
      ensures forall x :: x in old(records) && x != r ==> unchanged(x)
    {
      var key := Key(typeName, id);
      if key in index {
        r := index[key];
        r.data := attrs;
        if r.state == Clean {
          r.attributes := attrs;
        }
      } else {
        r := new Record(typeName, Some(id), Clean, attrs, attrs, defaultTransaction);
        records := records + {r};
        index := index[key := r];
      }
    }

    /** The children in `linked` are loaded under `parent`: that becomes their baseline, with no pending change. */
    method LinkChildren(linked: set<Slot>, parent: Record)
      requires Valid()
      modifies this`parentOf, this`changes, this`baseline
      ensures Valid()
      ensures parentOf == Rel.AssignAll(old(parentOf), linked, parent)
      ensures changes == old(changes) - linked
    {
      Rel.LoadTracks(baseline, Rel.Tracker(parentOf, changes), linked, parent);
      parentOf := Rel.AssignAll(parentOf, linked, parent);
      baseline := Rel.AssignAll(baseline, linked, parent);
      changes := changes - linked;
    }

    /** `transaction.createRecord(type, attrs)`: a new record owned by `t`. */
    method CreateRecordIn(t: Transaction, typeName: TypeName, attrs: map<string, Json>) returns (r: Record)
      requires Valid()
      modifies this
      ensures Valid() && fresh(r)
      ensures records == old(records) + {r}
      ensures r.typeName == typeName && r.id == None && r.state == Created(false) && r.attributes == attrs
      ensures r.data == map[] && r.errors == map[] && r.transaction == t
      ensures index == old(index) && parentOf == old(parentOf) && changes == old(changes)
      ensures defaultTransaction == old(defaultTransaction) && sent == old(sent)
    {
      r := new Record(typeName, None, Created(false), attrs, map[], t);
      records := records + {r};
    }

    /** `store.createRecord(type, attrs)`: a new record owned by the default transaction. */
    method CreateRecord(typeName: TypeName, attrs: map<string, Json>) returns (r: Record)
      requires Valid()
      modifies this
      ensures Valid() && fresh(r)
      ensures records == old(records) + {r}
      ensures r.typeName == typeName && r.id == None && r.state == Created(false) && r.attributes == attrs
      ensures r.data == map[] && r.errors == map[] && r.transaction == defaultTransaction
      ensures index == old(index) && parentOf == old(parentOf) && changes == old(changes)
      ensures defaultTransaction == old(defaultTransaction) && sent == old(sent)
    {
      r := CreateRecordIn(defaultTransaction, typeName, attrs);
    }

    /**
     * `transaction.add(record)`: claims the record for `t`.  A dirty record owned
     * by another transaction cannot be claimed.
     */
    method Add(t: Transaction, r: Record) returns (res: Outcome<Failure>)
      requires Valid() && r in records
      modifies r`transaction
      ensures Valid()
      ensures res.Fail? <==> old(r.transaction) != t && IsDirty(r.state)
      ensures res.Fail? ==> res.error == MembershipConflict
      ensures r.transaction == if res.Pass? then t else old(r.transaction)
    {
      if r.transaction != t && IsDirty(r.state) {
        res := Fail(MembershipConflict);
      } else {
        r.transaction := t;
        res := Pass;
      }
    }

    /**
     * `transaction.remove(record)`: a clean member of `t` goes back to the default
     * transaction; a dirty member cannot leave.  A record `t` does not own is left alone.
     */
    method Remove(t: Transaction, r: Record) returns (res: Outcome<Failure>)
      requires Valid() && r in records
      modifies r`transaction
      ensures Valid()
      ensures res.Fail? <==> old(r.transaction) == t && IsDirty(r.state)
      ensures res.Fail? ==> res.error == MembershipConflict
      ensures r.transaction == if old(r.transaction) == t && res.Pass? then defaultTransaction else old(r.transaction)
    {
      if r.transaction == t {
        if IsDirty(r.state) {
          res := Fail(MembershipConflict);
        } else {
          r.transaction := defaultTransaction;
          res := Pass;
        }
      } else {
        res := Pass;
      }
    }

    /** `record.set(name, value)` */
    method SetAttribute(r: Record, name: string, value: Json) returns (res: Outcome<Failure>)
      requires Valid() && r in records
      modifies r`state, r`attributes
      ensures Valid()
      ensures res.Pass? <==> SetProperty(old(r.state)).Some?
      ensures res.Fail? ==> res.error == UnhandledEvent && r.state == old(r.state) && r.attributes == old(r.attributes)
      ensures res.Pass? ==> r.state == SetProperty(old(r.state)).value && r.attributes == old(r.attributes)[name := value]
    {
      var next := SetProperty(r.state);
      if next.None? {
        res := Fail(UnhandledEvent);
      } else {
        r.state := next.value;
        r.attributes := r.attributes[name := value];
        res := Pass;
      }
    }

    /** `record.deleteRecord()` */
    method DeleteRecord(r: Record) returns (res: Outcome<Failure>)
      requires Valid() && r in records
      modifies r`state
      ensures Valid()
      ensures res.Pass? <==> RecordState.DeleteRecord(old(r.state)).Some?
      ensures res.Fail? ==> res.error == UnhandledEvent && r.state == old(r.state)
      ensures res.Pass? ==> r.state == RecordState.DeleteRecord(old(r.state)).value
    {
      var next := RecordState.DeleteRecord(r.state);
      if next.None? {
        res := Fail(UnhandledEvent);
      } else {
        r.state := next.value;
        res := Pass;
      }
    }

    /** `record.send('willCommit')` */
    method SendWillCommit(r: Record) returns (res: Outcome<Failure>)
      requires Valid() && r in records
      modifies r`state
      ensures Valid()
      ensures res.Pass? <==> WillCommit(old(r.state)).Some?
      ensures res.Fail? ==> res.error == UnhandledEvent && r.state == old(r.state)
      ensures res.Pass? ==> r.state == WillCommit(old(r.state)).value
    {
      var next := WillCommit(r.state);
      if next.None? {
        res := Fail(UnhandledEvent);
      } else {
        r.state := next.value;
        res := Pass;
      }
    }

    /** `store.recordWasInvalid(record, errors)`: the backend rejected the record's write. */
    method RecordWasInvalid(r: Record, errors: map<string, string>) returns (res: Outcome<Failure>)
      requires Valid() && r in records
      modifies r`state, r`errors
      ensures Valid()
      ensures res.Pass? <==> BecameInvalid(old(r.state)).Some?
      ensures res.Fail? ==> res.error == UnhandledEvent && r.state == old(r.state) && r.errors == old(r.errors)
      ensures res.Pass? ==> r.state == BecameInvalid(old(r.state)).value && r.errors == errors
    {
      var next := BecameInvalid(r.state);
      if next.None? {
        res := Fail(UnhandledEvent);
      } else {
        r.state := next.value;
        r.errors := errors;
        res := Pass;
      }
    }

    /**
     * The adapter acknowledges a record in flight (`didCreateRecord`,
     * `didSaveRecord`, ...).  The record becomes clean (or deleted for good), its
     * values become its loaded data, a new record takes the id the backend
     * assigned, it is moved to the default transaction and its relationship
     * changes are settled.
     */
    method DidCommitRecord(r: Record, assignedId: Option<Id>) returns (res: Outcome<Failure>)
      requires Valid() && r in records
      modifies this`index, this`changes, this`baseline, r`state, r`data, r`errors, r`transaction, r`id
      ensures Valid()
      ensures res.Pass? <==> IsInFlight(old(r.state))
      ensures res.Fail? ==> res.error == UnhandledEvent && unchanged(r) && unchanged(this`index, this`changes, this`baseline)
      ensures res.Pass? ==>
        && r.state == DidCommit(old(r.state)).value
        && r.data == old(r.attributes) && r.attributes == old(r.attributes) && r.errors == map[]
        && r.transaction == defaultTransaction
        && r.id == (if old(r.id).None? then assignedId else old(r.id))
        && index == (if old(r.id).None? && assignedId.Some? then old(index)[Key(r.typeName, assignedId.value) := r]
                     else old(index))
        && changes == old(changes) - (set s | s in old(changes) && s.child == r)
    {
      var next := DidCommit(r.state);
      if next.None? {
        res := Fail(UnhandledEvent);
        return;
      }
      Acknowledge(r, next.value);
      if r.id.None? && assignedId.Some? {
        AdoptId(r, assignedId.value);
      }
      SettleChanges(set s | s in changes && s.child == r);
      res := Pass;
    }

    /** The record side of an acknowledgement: its values become its loaded data. */
    method Acknowledge(r: Record, next: State)
      requires Valid() && r in records
      modifies r`state, r`data, r`errors, r`transaction
      ensures Valid()
      ensures r.state == next && r.data == r.attributes && r.errors == map[] && r.transaction == defaultTransaction
    {
      r.state := next;
      r.data := r.attributes;
      r.errors := map[];
      r.transaction := defaultTransaction;
    }

    /** The backend assigned `id` to a new record: it takes the id and enters the identity map. */
    method AdoptId(r: Record, id: Id)
      requires Valid() && r in records && r.id.None?
      modifies r`id, this`index
      ensures Valid()
      ensures r.id == Some(id) && index == old(index)[Key(r.typeName, id) := r]
    {
      r.id := Some(id);
      index := index[Key(r.typeName, id) := r];
    }

    /** The parents of `slots` become their baseline and their pending changes are dropped. */
    method SettleChanges(slots: set<Slot>)
      requires Valid()
      modifies this`changes, this`baseline
      ensures Valid()
      ensures changes == old(changes) - slots
    {
      Rel.SettleTracks(baseline, Rel.Tracker(parentOf, changes), slots);
      baseline := Rel.Settle(baseline, parentOf, slots);
      changes := changes - slots;
    }

    /**
     * `transaction.commit()`.  Every dirty record of `t` that is not already in
     * flight goes in flight, and the adapter receives them, grouped by
     * operation, together with the relationship changes of `t` whose child is
     * not in flight yet, unless there is nothing to send.  The changes stay
     * pending until their child is acknowledged: a child the backend rejects
     * keeps them for its next commit or for a rollback.  The clean records of `t` return to the default
     * transaction.  Committing the default transaction installs a new default
     * transaction and moves every record of the old one into it.
     */
    method Commit(t: Transaction)
      requires Valid()
      modifies this, records`state, records`transaction
      ensures Valid()
      ensures records == old(records) && index == old(index) && parentOf == old(parentOf)
      ensures t == old(defaultTransaction) ==> fresh(defaultTransaction)
      ensures t != old(defaultTransaction) ==> defaultTransaction == old(defaultTransaction)
      ensures sent == old(sent) + (if old(PendingRequest(t)).IsEmpty() then [] else [old(PendingRequest(t))])
      ensures changes == old(changes) && baseline == old(baseline)
      ensures forall r :: r in records && old(r.transaction) != t ==>
        r.state == old(r.state) && r.transaction == old(r.transaction)
      ensures forall r :: r in records && old(r.transaction) == t ==>
        && r.state == CommitState(old(r.state))
        && r.transaction == (if t == old(defaultTransaction) || !IsDirty(old(r.state)) then defaultTransaction else t)
    {
      Send(PendingRequest(t));
      var rotate := t == defaultTransaction;
      if rotate {
        defaultTransaction := new Transaction();
      }
      CommitMembers(t, rotate, defaultTransaction);
    }

    /** The adapter receives `req`, unless there is nothing in it. */
    method Send(req: CommitRequest)
      modifies this`sent
      ensures sent == old(sent) + (if req.IsEmpty() then [] else [req])
    {
      if !req.IsEmpty() {
        sent := sent + [req];
      }
    }

    /**
     * The record side of a commit: each record of `t` takes `CommitState` and
     * moves to `target` when it is clean or when `rotate` says every record of
     * `t` follows the default transaction; the others stay in `t`.
     */
    method CommitMembers(t: Transaction, rotate: bool, target: Transaction)
      requires Valid()
      modifies records`state, records`transaction
      ensures Valid()
      ensures forall r :: r in records && old(r.transaction) != t ==>
        r.state == old(r.state) && r.transaction == old(r.transaction)
      ensures forall r :: r in records && old(r.transaction) == t ==>
        && r.state == CommitState(old(r.state))
        && r.transaction == (if rotate || !IsDirty(old(r.state)) then target else t)
    {
      var mine := set r | r in records && r.transaction == t;
      var todo := mine;
      while todo != {}
        modifies mine`state, mine`transaction
        invariant todo <= mine
        invariant forall r :: r in records && (r !in mine || r in todo) ==>
          r.state == old(r.state) && r.transaction == old(r.transaction)
        invariant forall r :: r in mine && r !in todo ==>
          && r.state == CommitState(old(r.state))
          && r.transaction == (if rotate || !IsDirty(old(r.state)) then target else t)
        decreases |todo|
      {
        var r :| r in todo;
        var owner := if rotate || !IsDirty(r.state) then target else t;
        r.state := CommitState(r.state);
        r.transaction := owner;
        todo := todo - {r};
      }
    }

    /** `store.commit()`: commits the default transaction. */
    method CommitStore()
      requires Valid()
      modifies this, records`state, records`transaction
      ensures Valid()
      ensures records == old(records) && index == old(index) && parentOf == old(parentOf)
      ensures fresh(defaultTransaction)
      ensures sent == old(sent) + (if old(PendingRequest(defaultTransaction)).IsEmpty() then []
                                   else [old(PendingRequest(defaultTransaction))])
      ensures changes == old(changes) && baseline == old(baseline)
      ensures forall r :: r in records && old(r.transaction) != old(defaultTransaction) ==>
        r.state == old(r.state) && r.transaction == old(r.transaction)
      ensures forall r :: r in records && old(r.transaction) == old(defaultTransaction) ==>
        r.state == CommitState(old(r.state)) && r.transaction == defaultTransaction
    {
      Commit(defaultTransaction);
    }

    /**
     * `transaction.rollback()`.  The adapter is not contacted.  Every record of
     * `t` that is not in flight gets its loaded values back, loses its validation
     * errors, takes the state `Rollback` gives and returns to the default
     * transaction; the relationship changes of `t` whose child is not in
     * flight are undone and dropped.
     */
    method Rollback(t: Transaction)
      requires Valid()
      modifies this`parentOf, this`changes, records`state, records`attributes, records`errors, records`transaction
      ensures Valid()
      ensures changes == old(changes) - old(Unsent(t)).Keys
      ensures parentOf == Rel.Revert(old(parentOf), old(changes), old(Unsent(t)).Keys)
      ensures forall s :: s in old(Unsent(t)) ==> Rel.Lookup(parentOf, s) == Rel.Lookup(baseline, s)
      ensures forall r :: r in records && (old(r.transaction) != t || IsInFlight(old(r.state))) ==> unchanged(r)
      ensures forall r :: r in records && old(r.transaction) == t && !IsInFlight(old(r.state)) ==>
        && r.state == RecordState.Rollback(old(r.state)).value
        && r.attributes == old(r.data) && r.errors == map[] && r.transaction == defaultTransaction
    {
      RevertChanges(Unsent(t).Keys);
      RollbackMembers(t);
    }

    /** The slots in `undone` go back to the parents they had before their pending changes, which are dropped. */
    method RevertChanges(undone: set<Slot>)
      requires Valid() && undone <= changes.Keys
      modifies this`parentOf, this`changes
      ensures Valid()
      ensures changes == old(changes) - undone
      ensures parentOf == Rel.Revert(old(parentOf), old(changes), undone)
      ensures forall s :: s in undone ==> Rel.Lookup(parentOf, s) == Rel.Lookup(baseline, s)
    {
      Rel.RevertRestoresBase(baseline, Rel.Tracker(parentOf, changes), undone);
      parentOf := Rel.Revert(parentOf, changes, undone);
      changes := changes - undone;
    }

    /** The record side of a rollback. */
    method RollbackMembers(t: Transaction)
      requires Valid()
      modifies records`state, records`attributes, records`errors, records`transaction
      ensures Valid()
      ensures forall r :: r in records && (old(r.transaction) != t || IsInFlight(old(r.state))) ==> unchanged(r)
      ensures forall r :: r in records && old(r.transaction) == t && !IsInFlight(old(r.state)) ==>
        && r.state == RecordState.Rollback(old(r.state)).value
        && r.attributes == old(r.data) && r.errors == map[] && r.transaction == defaultTransaction
    {
      var mine := set r | r in records && r.transaction == t && !IsInFlight(r.state);
      var todo := mine;
      while todo != {}
        modifies mine`state, mine`attributes, mine`errors, mine`transaction
        invariant todo <= mine
        invariant forall r :: r in records && (r !in mine || r in todo) ==> unchanged(r)
        invariant forall r :: r in mine && r !in todo ==>
          && r.state == RecordState.Rollback(old(r.state)).value
          && r.attributes == old(r.data) && r.errors == map[] && r.transaction == defaultTransaction
        decreases |todo|
      {
        var r :| r in todo;
        r.state := RecordState.Rollback(r.state).value;
        r.attributes := r.data;
        r.errors := map[];
        r.transaction := defaultTransaction;
        todo := todo - {r};
      }
    }

    /**
     * `parent.get(association).pushObject(child)`: the child moves under `parent`
     * and the move is coalesced into its pending change.  Pushing a child onto
     * the parent it already has changes nothing.
     */
    method PushObject(parent: Record, association: string, child: Record) returns (res: Outcome<Failure>)
      requires Valid() && child in records
      modifies this`parentOf, this`changes, child`state
      ensures Valid()
      ensures res.Fail? <==>
        Rel.Lookup(old(parentOf), Slot(child, association)) != Some(parent) && SetProperty(old(child.state)).None?
      ensures res.Fail? ==> res.error == UnhandledEvent && unchanged(this`parentOf, this`changes) && child.state == old(child.state)
      ensures res.Pass? ==>
        Rel.Tracker(parentOf, changes) ==
        Rel.Step(Rel.Tracker(old(parentOf), old(changes)), Rel.Added(Slot(child, association), parent))
      ensures res.Pass? ==>
        child.state ==
        (if Rel.Lookup(old(parentOf), Slot(child, association)) == Some(parent) then old(child.state)
         else SetProperty(old(child.state)).value)
    {
      var slot := Slot(child, association);
      var before := Rel.Lookup(parentOf, slot);
      if before == Some(parent) {
        res := Pass;
        return;
      }
      var next := SetProperty(child.state);
      if next.None? {
        res := Fail(UnhandledEvent);
        return;
      }
      Rel.StepTracks(baseline, Rel.Tracker(parentOf, changes), Rel.Added(slot, parent));
      child.state := next.value;
      parentOf := Rel.Assign(parentOf, slot, Some(parent));
      changes := Rel.Coalesce(changes, slot, before, Some(parent));
      res := Pass;
    }

    /**
     * `parent.get(association).removeObject(child)`: the child leaves `parent` and
     * the move is coalesced into its pending change.  Removing a child from a
     * parent it is not under changes nothing.
     */
    method RemoveObject(parent: Record, association: string, child: Record) returns (res: Outcome<Failure>)
      requires Valid() && child in records
      modifies this`parentOf, this`changes, child`state
      ensures Valid()
      ensures res.Fail? <==>
        Rel.Lookup(old(parentOf), Slot(child, association)) == Some(parent) && SetProperty(old(child.state)).None?
      ensures res.Fail? ==> res.error == UnhandledEvent && unchanged(this`parentOf, this`changes) && child.state == old(child.state)
      ensures res.Pass? ==>
        Rel.Tracker(parentOf, changes) ==
        Rel.Step(Rel.Tracker(old(parentOf), old(changes)), Rel.Removed(Slot(child, association), parent))
      ensures res.Pass? ==>
        child.state ==
        (if Rel.Lookup(old(parentOf), Slot(child, association)) != Some(parent) then old(child.state)
         else SetProperty(old(child.state)).value)
    {
      var slot := Slot(child, association);
      var before := Rel.Lookup(parentOf, slot);
      if before != Some(parent) {
        res := Pass;
        return;
      }
      var next := SetProperty(child.state);
      if next.None? {
        res := Fail(UnhandledEvent);
        return;
      }
      Rel.StepTracks(baseline, Rel.Tracker(parentOf, changes), Rel.Removed(slot, parent));
      child.state := next.value;
      parentOf := Rel.Assign(parentOf, slot, None);
      changes := Rel.Coalesce(changes, slot, before, None);
      res := Pass;
    }
  }
}
