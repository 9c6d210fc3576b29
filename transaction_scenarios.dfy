/**
 * The transaction behaviour pinned down by the unit tests, each replayed on a
 * fresh store.  Every scenario returns what its test observes (adapter call
 * counts, record flags, memberships) and its postcondition is what the test
 * asserts about those observations.
 */
module TransactionScenarios {
  import opened Common
  import opened RecordState
  import opened Transactions
  import Rel = Relationships

  const Person: TypeName := "Person"
  const Post: TypeName := "Post"
  const Comment: TypeName := "Comment"

  function Name(s: string): map<string, Json> {
    map["name" := JString(s)]
  }

  /** `store.transaction()` gives a transaction distinct from the default one. */
  method NewTransactionIsDistinct() returns (distinct: bool)
    ensures distinct
  {
    var store := new Store();
    var t := store.NewTransaction();
    distinct := t != store.defaultTransaction;
  }

  /** A store holding one new record, created in a new transaction. */
  method CreatedInTransaction() returns (store: Store, t: Transaction, r: Record)
    ensures fresh(store) && fresh(r) && store.Valid() && store.records == {r}
    ensures r.typeName == Person && r.id == None && r.state == Created(false) && r.transaction == t
    ensures t != store.defaultTransaction && store.sent == [] && store.changes == map[]
  {
    store := new Store();
    t := store.NewTransaction();
    r := store.CreateRecordIn(t, Person, map[]);
  }

  /** A store holding one loaded record, added to a new transaction. */
  method LoadedInTransaction(attrs: map<string, Json>) returns (store: Store, t: Transaction, r: Record)
    ensures fresh(store) && fresh(r) && store.Valid() && store.records == {r}
    ensures r.typeName == Person && r.state == Clean && r.transaction == t && r.data == attrs && r.attributes == attrs
    ensures t != store.defaultTransaction && store.sent == [] && store.changes == map[]
  {
    store := new Store();
    var loaded := store.Load(Person, 1, attrs, []);
    t := store.NewTransaction();
    r := store.Find(Person, 1).value;
    var added := store.Add(t, r);
  }

  /** A record created in a transaction is committed by that transaction only (`createRecords` calls). */
  method CreatedRecordIsCommittedByItsTransaction() returns (afterStoreCommit: nat, afterTransactionCommit: nat)
    ensures afterStoreCommit == 0 && afterTransactionCommit == 1
  {
    var store, t, r := CreatedInTransaction();
    store.PendingOfOnlyRecord(store.defaultTransaction, r);
    store.CommitStore();
    assert store.records == {r} && store.changes == map[] && r.transaction == t;
    afterStoreCommit := BatchCalls(store.sent, Create);
    store.PendingOfOnlyRecord(t, r);
    CallsAfterSend(store.sent, RequestFor(r), Create);
    assert TypesOf({r}) == {Person};
    store.Commit(t);
    afterTransactionCommit := BatchCalls(store.sent, Create);
  }

  /** A loaded record added to a transaction and then changed. */
  method UpdatedInTransaction() returns (store: Store, t: Transaction, r: Record)
    ensures fresh(store) && fresh(r) && store.Valid() && store.records == {r}
    ensures r.typeName == Person && r.state == Updated(false) && r.transaction == t
    ensures t != store.defaultTransaction && store.sent == [] && store.changes == map[]
  {
    store, t, r := LoadedInTransaction(Name("Yehuda Katz"));
    var changed := store.SetAttribute(r, "name", JString("Brohuda Brokatz"));
  }

  /** A loaded record added to a transaction and then changed is committed by that transaction only. */
  method UpdatedRecordIsCommittedByItsTransaction() returns (afterStoreCommit: nat, afterTransactionCommit: nat)
    ensures afterStoreCommit == 0 && afterTransactionCommit == 1
  {
    var store, t, r := UpdatedInTransaction();
    store.PendingOfOnlyRecord(store.defaultTransaction, r);
    store.CommitStore();
    assert store.records == {r} && store.changes == map[] && r.transaction == t;
    afterStoreCommit := BatchCalls(store.sent, Update);
    store.PendingOfOnlyRecord(t, r);
    CallsAfterSend(store.sent, RequestFor(r), Update);
    assert TypesOf({r}) == {Person};
    store.Commit(t);
    afterTransactionCommit := BatchCalls(store.sent, Update);
  }

  /** A new record whose transaction committed it and whose creation the adapter acknowledged with id 1. */
  method SavedAfterTransactionCommit() returns (store: Store, t: Transaction, r: Record, creates: nat)
    ensures fresh(store) && fresh(r) && store.Valid() && store.records == {r}
    ensures r.typeName == Person && r.state == Clean && r.id == Some(1) && r.transaction == store.defaultTransaction
    ensures t != store.defaultTransaction && store.changes == map[] && creates == 1
    ensures RecordCalls(store.sent, Update) == 0 && BatchCalls(store.sent, Update) == 0
  {
    var created;
    store, t, created := CreatedInTransaction();
    r := created;
    store.PendingOfOnlyRecord(t, r);
    CallsAfterSend(store.sent, RequestFor(r), Create);
    CallsAfterSend(store.sent, RequestFor(r), Update);
    store.Commit(t);
    assert r.state == Created(true);
    creates := RecordCalls(store.sent, Create);
    var saved := store.DidCommitRecord(r, Some(1));
  }

  /** The saved record changed again, after its old transaction committed once more. */
  method ChangedAfterTransactionCommit() returns (store: Store, r: Record, creates: nat, updates: nat)
    ensures fresh(store) && fresh(r) && store.Valid() && store.records == {r} && store.changes == map[]
    ensures r.typeName == Person && r.state == Updated(false) && r.transaction == store.defaultTransaction
    ensures creates == 1 && updates == 0 && BatchCalls(store.sent, Update) == 0
  {
    var t;
    store, t, r, creates := SavedAfterTransactionCommit();
    var changed := store.SetAttribute(r, "foo", JString("bar"));
    store.PendingOfOnlyRecord(t, r);
    assert store.PendingRequest(t).IsEmpty();
    ghost var before := store.sent;
    store.Commit(t);
    assert store.sent == before;
    updates := BatchCalls(store.sent, Update);
  }

  /**
   * A record created in a transaction leaves it once the adapter has saved
   * it: a later change is committed by the store, not by the transaction
   * (`createRecord` and `updateRecords` calls).
   */
  method SavedRecordLeavesItsTransaction() returns (creates: nat, updatesAfterTransactionCommit: nat, updatesAfterStoreCommit: nat)
    ensures creates == 1 && updatesAfterTransactionCommit == 0 && updatesAfterStoreCommit == 1
  {
    var store, r;
    store, r, creates, updatesAfterTransactionCommit := ChangedAfterTransactionCommit();
    store.PendingOfOnlyRecord(store.defaultTransaction, r);
    CallsAfterSend(store.sent, RequestFor(r), Update);
    assert TypesOf({r}) == {Person};
    store.CommitStore();
    updatesAfterStoreCommit := BatchCalls(store.sent, Update);
  }

  /** A loaded record added to a transaction and then deleted. */
  method DeletedInTransaction() returns (store: Store, t: Transaction, r: Record)
    ensures fresh(store) && fresh(r) && store.Valid() && store.records == {r}
    ensures r.typeName == Person && r.state == Deleted(false) && r.transaction == t
    ensures t != store.defaultTransaction && store.sent == [] && store.changes == map[]
  {
    store, t, r := LoadedInTransaction(Name("Yehuda Katz"));
    var deleted := store.DeleteRecord(r);
  }

  /** A loaded record added to a transaction and then deleted is committed by that transaction only. */
  method DeletedRecordIsCommittedByItsTransaction() returns (afterStoreCommit: nat, afterTransactionCommit: nat)
    ensures afterStoreCommit == 0 && afterTransactionCommit == 1
  {
    var store, t, r := DeletedInTransaction();
    store.PendingOfOnlyRecord(store.defaultTransaction, r);
    store.CommitStore();
    assert store.records == {r} && store.changes == map[] && r.transaction == t;
    afterStoreCommit := BatchCalls(store.sent, Delete);
    store.PendingOfOnlyRecord(t, r);
    CallsAfterSend(store.sent, RequestFor(r), Delete);
    assert TypesOf({r}) == {Person};
    store.Commit(t);
    afterTransactionCommit := BatchCalls(store.sent, Delete);
  }

  /** A clean record removed from a transaction is committed by the store again (`updateRecord` calls). */
  method RemovedRecordIsCommittedByTheStore() returns (afterTransactionCommit: nat, afterStoreCommit: nat)
    ensures afterTransactionCommit == 0 && afterStoreCommit == 1
  {
    var store, t, r := LoadedInTransaction(Name("Yehuda Katz"));
    var removed := store.Remove(t, r);
    var changed := store.SetAttribute(r, "name", JString("shuck it trebek"));
    store.PendingOfOnlyRecord(t, r);
    store.Commit(t);
    assert store.records == {r} && store.changes == map[];
    afterTransactionCommit := RecordCalls(store.sent, Update);
    store.PendingOfOnlyRecord(store.defaultTransaction, r);
    CallsAfterSend(store.sent, RequestFor(r), Update);
    store.CommitStore();
    afterStoreCommit := RecordCalls(store.sent, Update);
  }

  /** A record in the created state cannot be moved into a new transaction. */
  method CreatedRecordCannotMove() returns (added: Outcome<Failure>)
    ensures added == Fail(MembershipConflict)
  {
    var store := new Store();
    var person := store.CreateRecord(Person, map[]);
    var t := store.NewTransaction();
    added := store.Add(t, person);
  }

  /** A store holding one loaded record, still in the default transaction. */
  method LoadedInDefault() returns (store: Store, r: Record)
    ensures fresh(store) && fresh(r) && store.Valid() && store.records == {r}
    ensures r.state == Clean && r.transaction == store.defaultTransaction
  {
    store := new Store();
    var loaded := store.Load(Person, 1, map[], []);
    r := store.Find(Person, 1).value;
  }

  /** A record in the updated state cannot be moved into a new transaction. */
  method UpdatedRecordCannotMove() returns (added: Outcome<Failure>)
    ensures added == Fail(MembershipConflict)
  {
    var store, person := LoadedInDefault();
    var changed := store.SetAttribute(person, "name", JString("Scumdale"));
    var t := store.NewTransaction();
    added := store.Add(t, person);
  }

  /** A record in the deleted state cannot be moved into a new transaction. */
  method DeletedRecordCannotMove() returns (added: Outcome<Failure>)
    ensures added == Fail(MembershipConflict)
  {
    var store, person := LoadedInDefault();
    var deleted := store.DeleteRecord(person);
    var t := store.NewTransaction();
    added := store.Add(t, person);
  }

  /** A clean record returns to the default transaction once its transaction commits. */
  method CleanRecordReturnsToDefault() returns (backInDefault: bool)
    ensures backInDefault
  {
    var store, t, person := LoadedInTransaction(map[]);
    store.Commit(t);
    backInDefault := person.transaction == store.defaultTransaction;
  }

  /** What a test reads off a record after a rollback. */
  datatype Observed = Observed(dirty: bool, isNew: bool, deleted: bool, valid: bool, name: Json, inDefault: bool)

  function Observe(store: Store, r: Record): Observed
    reads store`defaultTransaction, r`state, r`attributes, r`transaction
  {
    Observed(IsDirty(r.state), IsNew(r.state), IsDeleted(r.state), IsValid(r.state), r.Get("name"),
             r.transaction == store.defaultTransaction)
  }

  /** Two people loaded into a fresh store, both clean and owned by the default transaction. */
  method TwoPeople(name1: string, name2: string) returns (store: Store, p1: Record, p2: Record)
    ensures fresh(store) && fresh(p1) && fresh(p2) && store.Valid()
    ensures store.records == {p1, p2} && p1 != p2
    ensures store.index == map[Key(Person, 1) := p1, Key(Person, 2) := p2]
    ensures p1.state == Clean && p1.data == p1.attributes == Name(name1)
    ensures p2.state == Clean && p2.data == p2.attributes == Name(name2)
    ensures p1.transaction == p2.transaction == store.defaultTransaction
    ensures store.sent == [] && store.changes == map[]
  {
    store := new Store();
    p1 := store.Load(Person, 1, Name(name1), []);
    assert Key(Person, 2) !in store.index;
    p2 := store.Load(Person, 2, Name(name2), []);
  }

  /** A third person loaded after `TwoPeople`. */
  method ThreePeople() returns (store: Store, p1: Record, p2: Record, p3: Record)
    ensures fresh(store) && fresh(p1) && fresh(p2) && fresh(p3) && store.Valid()
    ensures store.records == {p1, p2, p3} && p1 != p2 && p1 != p3 && p2 != p3
    ensures store.index == map[Key(Person, 1) := p1, Key(Person, 2) := p2, Key(Person, 3) := p3]
    ensures p1.state == Clean && p1.data == p1.attributes == Name("Scumbag Tom")
    ensures p2.state == Clean && p2.data == p2.attributes == Name("Scumbag Carl")
    ensures p3.state == Clean && p3.data == p3.attributes == Name("Scumbag André")
    ensures p1.transaction == p2.transaction == p3.transaction == store.defaultTransaction
    ensures store.sent == [] && store.changes == map[]
  {
    store, p1, p2 := TwoPeople("Scumbag Tom", "Scumbag Carl");
    assert Key(Person, 3) !in store.index;
    p3 := store.Load(Person, 3, Name("Scumbag André"), []);
  }

  /** Four people loaded into a fresh store, all clean and owned by the default transaction. */
  method FourPeople() returns (store: Store, p1: Record, p2: Record, p3: Record, p4: Record)
    ensures fresh(store) && fresh(p1) && fresh(p2) && fresh(p3) && fresh(p4) && store.Valid()
    ensures store.records == {p1, p2, p3, p4}
    ensures p1 != p2 && p1 != p3 && p1 != p4 && p2 != p3 && p2 != p4 && p3 != p4
    ensures p1.state == Clean && p1.data == p1.attributes == Name("Scumbag Tom")
    ensures p2.state == Clean && p2.data == p2.attributes == Name("Scumbag Carl")
    ensures p3.state == Clean && p3.data == p3.attributes == Name("Scumbag André")
    ensures p4.state == Clean && p4.data == p4.attributes == Name("Scumbag Paul")
    ensures p1.transaction == p2.transaction == p3.transaction == p4.transaction == store.defaultTransaction
    ensures store.sent == [] && store.changes == map[]
  {
    store, p1, p2, p3 := ThreePeople();
    assert Key(Person, 4) !in store.index;
    p4 := store.Load(Person, 4, Name("Scumbag Paul"), []);
  }

  /** The four people added to a new transaction. */
  method FourInTransaction() returns (store: Store, t: Transaction, p1: Record, p2: Record, p3: Record, p4: Record)
    ensures fresh(store) && fresh(p1) && fresh(p2) && fresh(p3) && fresh(p4) && store.Valid()
    ensures store.records == {p1, p2, p3, p4}
    ensures p1 != p2 && p1 != p3 && p1 != p4 && p2 != p3 && p2 != p4 && p3 != p4
    ensures p1.state == Clean && p1.data == p1.attributes == Name("Scumbag Tom")
    ensures p2.state == Clean && p2.data == p2.attributes == Name("Scumbag Carl")
    ensures p3.state == Clean && p3.data == p3.attributes == Name("Scumbag André")
    ensures p4.state == Clean && p4.data == p4.attributes == Name("Scumbag Paul")
    ensures p1.transaction == p2.transaction == p3.transaction == p4.transaction == t
    ensures t != store.defaultTransaction && store.sent == [] && store.changes == map[]
  {
    store, p1, p2, p3, p4 := FourPeople();
    t := store.NewTransaction();
    var a1 := store.Add(t, p1);
    var a2 := store.Add(t, p2);
    var a3 := store.Add(t, p3);
    var a4 := store.Add(t, p4);
  }

  /** The four people added to a new transaction, which then creates two more. */
  method SixInTransaction() returns (store: Store, t: Transaction, p1: Record, p2: Record, p3: Record, p4: Record,
                                     p5: Record, p6: Record)
    ensures fresh(store) && fresh(p1) && fresh(p2) && fresh(p3) && fresh(p4) && fresh(p5) && fresh(p6)
    ensures store.Valid() && store.records == {p1, p2, p3, p4, p5, p6}
    ensures p1 != p2 && p1 != p3 && p1 != p4 && p2 != p3 && p2 != p4 && p3 != p4
    ensures p5 != p6 && p5 !in {p1, p2, p3, p4} && p6 !in {p1, p2, p3, p4}
    ensures p1.state == Clean && p1.data == p1.attributes == Name("Scumbag Tom")
    ensures p2.state == Clean && p2.data == p2.attributes == Name("Scumbag Carl")
    ensures p3.state == Clean && p3.data == p3.attributes == Name("Scumbag André")
    ensures p4.state == Clean && p4.data == p4.attributes == Name("Scumbag Paul")
    ensures p5.state == Created(false) && p5.data == map[] && p5.attributes == Name("Scumbag Yehuda")
    ensures p6.state == Created(false) && p6.data == map[] && p6.attributes == map[]
    ensures p1.transaction == p2.transaction == p3.transaction == p4.transaction == p5.transaction == p6.transaction == t
    ensures t != store.defaultTransaction && store.sent == [] && store.changes == map[]
  {
    store, t, p1, p2, p3, p4 := FourInTransaction();
    p5 := store.CreateRecordIn(t, Person, Name("Scumbag Yehuda"));
    p6 := store.CreateRecordIn(t, Person, map[]);
  }

  /** The first edits of the rollback test: two updates and a deletion. */
  method UpdatedAndDeleted() returns (store: Store, t: Transaction, p1: Record, p2: Record, p3: Record, p4: Record,
                                      p5: Record, p6: Record)
    ensures fresh(store) && fresh(p1) && fresh(p2) && fresh(p3) && fresh(p4) && fresh(p5) && fresh(p6)
    ensures store.Valid() && store.records == {p1, p2, p3, p4, p5, p6}
    ensures p4 !in {p1, p2, p3, p5} && p6 !in {p1, p2, p3, p5}
    ensures p1.state == Updated(false) && p1.data == Name("Scumbag Tom") && p1.Get("name") == JString("Scumbag Patrick")
    ensures p2.state == Deleted(false)
    ensures p3.state == Updated(false) && p3.data == Name("Scumbag André") && p3.Get("name") == JString("Scumbag Leah")
    ensures p4.state == Clean && p4.data == Name("Scumbag Paul")
    ensures p5.state == Created(false) && p6.state == Created(false)
    ensures p1.transaction == p2.transaction == p3.transaction == p4.transaction == p5.transaction == p6.transaction == t
    ensures t != store.defaultTransaction && store.sent == [] && store.changes == map[]
  {
    store, t, p1, p2, p3, p4, p5, p6 := SixInTransaction();
    var s1 := store.SetAttribute(p1, "name", JString("Scumbag Patrick"));
    var s3 := store.SetAttribute(p3, "name", JString("Scumbag Leah"));
    var d2 := store.DeleteRecord(p2);
  }

  /** All the edits of the rollback test: the last two records are also rejected by the backend. */
  method EditedSix() returns (store: Store, t: Transaction, p1: Record, p2: Record, p3: Record, p4: Record,
                              p5: Record, p6: Record)
    ensures fresh(store) && fresh(p1) && fresh(p2) && fresh(p3) && fresh(p4) && fresh(p5) && fresh(p6)
    ensures store.Valid() && store.records == {p1, p2, p3, p4, p5, p6}
    ensures p1.state == Updated(false) && p1.data == Name("Scumbag Tom") && p1.Get("name") == JString("Scumbag Patrick")
    ensures p2.state == Deleted(false)
    ensures p3.state == Updated(false) && p3.data == Name("Scumbag André") && p3.Get("name") == JString("Scumbag Leah")
    ensures p4.state == Invalid(false) && p4.data == Name("Scumbag Paul")
    ensures p5.state == Created(false)
    ensures p6.state == Invalid(true)
    ensures p1.transaction == p2.transaction == p3.transaction == p4.transaction == p5.transaction == p6.transaction == t
    ensures t != store.defaultTransaction && store.sent == [] && store.changes == map[]
  {
    store, t, p1, p2, p3, p4, p5, p6 := UpdatedAndDeleted();
    var s4 := store.SetAttribute(p4, "name", JNull);
    var w4 := store.SendWillCommit(p4);
    var i4 := store.RecordWasInvalid(p4, map["name" := "no name!"]);
    var w6 := store.SendWillCommit(p6);
    var i6 := store.RecordWasInvalid(p6, map["name" := "no name!"]);
  }

  /** Before the rollback, the edits have made every record of the transaction dirty. */
  method EditsBeforeRollback() returns (before: seq<Observed>)
    ensures |before| == 6
    // updated, deleted, anotherUpdated, invalid, new, anotherInvalid
    ensures before[0].dirty && before[0].name == JString("Scumbag Patrick")
    ensures before[1].dirty && before[1].deleted
    ensures before[2].dirty && before[2].name == JString("Scumbag Leah")
    ensures before[3].dirty && !before[3].valid
    ensures before[4].dirty && before[4].isNew
    ensures before[5].dirty && before[5].isNew && !before[5].valid
  {
    var store, t, p1, p2, p3, p4, p5, p6 := EditedSix();
    before := [Observe(store, p1), Observe(store, p2), Observe(store, p3),
               Observe(store, p4), Observe(store, p5), Observe(store, p6)];
  }

  /**
   * Rolling a transaction back restores the loaded values of its updated
   * records and returns them to the default transaction, without contacting
   * the adapter.
   */
  method RollbackRestoresUpdated() returns (updated: Observed, anotherUpdated: Observed, sentNothing: bool)
    ensures updated == Observed(false, false, false, true, JString("Scumbag Tom"), true)
    ensures anotherUpdated == Observed(false, false, false, true, JString("Scumbag André"), true)
    ensures sentNothing
  {
    var store, t, p1, p2, p3, p4, p5, p6 := EditedSix();
    store.Rollback(t);
    assert p1.state == Clean && p1.attributes == Name("Scumbag Tom") && p1.transaction == store.defaultTransaction;
    assert p3.state == Clean && p3.attributes == Name("Scumbag André") && p3.transaction == store.defaultTransaction;
    updated, anotherUpdated := Observe(store, p1), Observe(store, p3);
    sentNothing := store.sent == [];
  }

  /** Rolling back undeletes the deleted record and revalidates the rejected update. */
  method RollbackUndeletesAndRevalidates() returns (deleted: Observed, invalid: Observed)
    ensures !deleted.dirty && !deleted.deleted && deleted.inDefault
    ensures invalid == Observed(false, false, false, true, JString("Scumbag Paul"), true)
  {
    var store, t, p1, p2, p3, p4, p5, p6 := EditedSix();
    store.Rollback(t);
    deleted, invalid := Observe(store, p2), Observe(store, p4);
  }

  /** Rolling back deletes the records the transaction created, valid or not. */
  method RollbackDeletesCreated() returns (created: Observed, anotherInvalid: Observed)
    ensures !created.dirty && created.deleted && created.inDefault
    ensures anotherInvalid.valid && anotherInvalid.deleted
  {
    var store, t, p1, p2, p3, p4, p5, p6 := EditedSix();
    store.Rollback(t);
    created, anotherInvalid := Observe(store, p5), Observe(store, p6);
  }

  /** An updated record the backend rejected is valid again after a rollback. */
  method RollbackRevalidates() returns (validBefore: bool, validAfter: bool)
    ensures !validBefore && validAfter
  {
    var store, t, person := LoadedInTransaction(Name("Scumbag Tom"));
    var changed := store.SetAttribute(person, "name", JString("toto"));
    var rejected := store.RecordWasInvalid(person, map["name" := "error"]);
    validBefore := IsValid(person.state);
    store.Rollback(t);
    validAfter := IsValid(person.state);
  }

  /** A store holding one loaded comment. */
  method LoadedComment() returns (store: Store, comment: Record)
    ensures fresh(store) && fresh(comment) && store.Valid()
    ensures store.index == map[Key(Comment, 1) := comment] && store.records == {comment}
    ensures comment.state == Clean && store.parentOf == map[] && store.changes == map[]
  {
    store := new Store();
    comment := store.Load(Comment, 1, map["body" := JString("Kthx")], []);
  }

  /** A store holding a loaded comment and a loaded post; with `linked` the post was loaded with the comment under its `comments`. */
  method PostAndComment(linked: bool) returns (store: Store, post: Record, comment: Record)
    ensures fresh(store) && fresh(post) && fresh(comment) && store.Valid()
    ensures store.index == map[Key(Comment, 1) := comment, Key(Post, 1) := post]
    ensures store.records == {post, comment} && post != comment
    ensures post.state == Clean && comment.state == Clean
    ensures store.changes == map[]
    ensures Rel.Lookup(store.parentOf, Slot(comment, "comments")) == if linked then Some(post) else None
  {
    store, comment := LoadedComment();
    var links := if linked then [Link("comments", Key(Comment, 1))] else [];
    ghost var slots := if linked then {Slot(comment, "comments")} else {};
    assert store.LinkedSlots(links) == slots;
    assert Key(Post, 1) !in store.index;
    post := store.Load(Post, 1, map["title" := JString("Ohai"), "body" := JString("FIRST POST ZOMG")], links);
  }

  /** The same store with the post and the comment added to a new transaction. */
  method PostAndCommentInTransaction(linked: bool) returns (store: Store, t: Transaction, post: Record, comment: Record)
    ensures fresh(store) && fresh(post) && fresh(comment) && store.Valid()
    ensures store.index == map[Key(Comment, 1) := comment, Key(Post, 1) := post]
    ensures store.records == {post, comment} && post != comment
    ensures post.state == Clean && comment.state == Clean
    ensures post.transaction == t && comment.transaction == t && t != store.defaultTransaction
    ensures store.changes == map[]
    ensures Rel.Lookup(store.parentOf, Slot(comment, "comments")) == if linked then Some(post) else None
  {
    store, post, comment := PostAndComment(linked);
    t := store.NewTransaction();
    var a1 := store.Add(t, post);
    var a2 := store.Add(t, comment);
  }

  /** Pushing a clean child onto a parent records one change, null to the parent. */
  method PushRecordsChange() returns (store: Store, t: Transaction, child: Record, pushedOnto: Record)
    ensures store.Valid() && store.Find(Comment, 1) == Some(child) && store.Find(Post, 1) == Some(pushedOnto)
    ensures t != store.defaultTransaction
    ensures store.Relationships(t) == map[Slot(child, "comments") := Rel.Change(None, Some(pushedOnto))]
  {
    var post, comment;
    store, t, post, comment := PostAndCommentInTransaction(false);
    var slot := Slot(comment, "comments");
    Rel.PushGivesOneChange(store.parentOf, slot, post);
    var ok := store.PushObject(post, "comments", comment);
    store.RelationshipsWhenOwned(t);
    child, pushedOnto := comment, post;
  }

  /** Removing a child from its loaded parent records one change, the parent to null. */
  method RemoveRecordsChange() returns (store: Store, t: Transaction, child: Record, removedFrom: Record)
    ensures store.Valid() && store.Find(Comment, 1) == Some(child) && store.Find(Post, 1) == Some(removedFrom)
    ensures t != store.defaultTransaction
    ensures store.Relationships(t) == map[Slot(child, "comments") := Rel.Change(Some(removedFrom), None)]
  {
    var post, comment;
    store, t, post, comment := PostAndCommentInTransaction(true);
    var slot := Slot(comment, "comments");
    Rel.RemoveGivesOneChange(store.parentOf, slot, post);
    var ok := store.RemoveObject(post, "comments", comment);
    store.RelationshipsWhenOwned(t);
    child, removedFrom := comment, post;
  }

  /** Removing a child and pushing it back onto the same parent leaves no change. */
  method RemoveThenPushLeavesNoChange() returns (count: nat)
    ensures count == 0
  {
    var store, t, post, comment := PostAndCommentInTransaction(true);
    var slot := Slot(comment, "comments");
    ghost var t0 := Rel.Tracker(store.parentOf, store.changes);
    Rel.RemoveThenPushCancels(store.parentOf, slot, post);
    assert [Rel.Removed(slot, post), Rel.Added(slot, post)][1..][1..] == [];
    var removed := store.RemoveObject(post, "comments", comment);
    var pushed := store.PushObject(post, "comments", comment);
    store.RelationshipsWhenOwned(t);
    var rels := store.Relationships(t);
    count := |rels|;
  }

  /** `RemoveRecordsChange`'s removal, committed by its transaction: the comment is in flight and the removal still pending. */
  method RemovalCommitted() returns (store: Store, t: Transaction, post: Record, comment: Record)
    ensures fresh(store) && fresh(post) && fresh(comment) && store.Valid() && store.records == {post, comment}
    ensures comment.transaction == t
    ensures comment.state == Updated(true)
    ensures store.changes == map[Slot(comment, "comments") := Rel.Change(Some(post), None)]
  {
    store, t, post, comment := PostAndCommentInTransaction(true);
    var slot := Slot(comment, "comments");
    Rel.RemoveGivesOneChange(store.parentOf, slot, post);
    var removed := store.RemoveObject(post, "comments", comment);
    assert comment.state == Updated(false) && comment.transaction == t && t != store.defaultTransaction;
    store.Commit(t);
  }

  /** The same removal after the backend rejected the comment: the comment is invalid and the removal is still pending. */
  method RemovalRejected() returns (store: Store, t: Transaction, post: Record, comment: Record)
    ensures fresh(store) && fresh(post) && fresh(comment) && store.Valid() && store.records == {post, comment}
    ensures comment.transaction == t
    ensures comment.state == Invalid(false)
    ensures store.changes == map[Slot(comment, "comments") := Rel.Change(Some(post), None)]
  {
    store, t, post, comment := RemovalCommitted();
    var rejected := store.RecordWasInvalid(comment, map["body" := "is invalid"]);
  }

  /**
   * A removal the backend rejects stays pending: committing the transaction
   * again offers it again, and rolling the transaction back puts the child
   * back under its parent with no change left.
   */
  method RejectedRemovalStaysPending() returns (resent: bool, restored: bool)
    ensures resent && restored
  {
    var store, t, post, comment := RemovalRejected();
    var slot := Slot(comment, "comments");
    var change := Rel.Change(Some(post), None);
    assert Rel.Lookup(store.changes, slot) == Some(change);
    assert Rel.Lookup(store.baseline, slot) == Some(post);
    assert slot in store.Relationships(t);
    resent := store.PendingRequest(t).relationships == map[slot := change];
    store.Rollback(t);
    restored := Rel.Lookup(store.parentOf, slot) == Some(post) && store.changes == map[];
  }

  /** A store as `PostAndCommentInTransaction(true)` gives, with a second post loaded. */
  method TwoPosts() returns (store: Store, t: Transaction, post: Record, post2: Record, comment: Record)
    ensures fresh(store) && fresh(comment) && store.Valid()
    ensures store.index == map[Key(Comment, 1) := comment, Key(Post, 1) := post, Key(Post, 2) := post2]
    ensures fresh(post) && fresh(post2) && store.records == {post, post2, comment} && post != post2
    ensures comment.state == Clean && comment.transaction == t && t != store.defaultTransaction
    ensures store.changes == map[]
    ensures Rel.Lookup(store.parentOf, Slot(comment, "comments")) == Some(post)
  {
    store, t, post, comment := PostAndCommentInTransaction(true);
    assert Key(Post, 2) !in store.index;
    post2 := store.Load(Post, 2, map["title" := JString("ZOMG"), "body" := JString("SECOND POST WAT")], []);
  }

  /** A store as `PostAndCommentInTransaction(true)` gives, with two more posts loaded. */
  method ThreePosts() returns (store: Store, t: Transaction, post: Record, post2: Record, post3: Record, comment: Record)
    ensures fresh(store) && fresh(comment) && store.Valid()
    ensures store.index == map[Key(Comment, 1) := comment, Key(Post, 1) := post, Key(Post, 2) := post2, Key(Post, 3) := post3]
    ensures comment in store.records && post != post2 && post2 != post3 && post3 != post
    ensures comment.state == Clean && comment.transaction == t && t != store.defaultTransaction
    ensures store.changes == map[]
    ensures Rel.Lookup(store.parentOf, Slot(comment, "comments")) == Some(post)
  {
    store, t, post, post2, comment := TwoPosts();
    assert Key(Post, 3) !in store.index;
    post3 := store.Load(Post, 3, map["title" := JString("ORLY?"), "body" := JString("Why am I still here?")], []);
  }

  /** The first move of `MovesCoalesce`: the comment leaves the first post for the second. */
  method FirstMove() returns (store: Store, t: Transaction, post: Record, post2: Record, post3: Record, comment: Record)
    ensures fresh(store) && fresh(comment) && store.Valid()
    ensures store.index == map[Key(Comment, 1) := comment, Key(Post, 1) := post, Key(Post, 2) := post2, Key(Post, 3) := post3]
    ensures comment in store.records && post != post2 && post2 != post3 && post3 != post
    ensures comment.state == Updated(false) && comment.transaction == t && t != store.defaultTransaction
    ensures Rel.Lookup(store.parentOf, Slot(comment, "comments")) == Some(post2)
    ensures store.changes == map[Slot(comment, "comments") := Rel.Change(Some(post), Some(post2))]
  {
    store, t, post, post2, post3, comment := ThreePosts();
    ghost var t0 := Rel.Tracker(store.parentOf, store.changes);
    ghost var index := store.index;
    var m1 := store.RemoveObject(post, "comments", comment);
    assert store.index == index && comment.transaction == t && t != store.defaultTransaction;
    var m2 := store.PushObject(post2, "comments", comment);
    assert store.index == index && comment.transaction == t && t != store.defaultTransaction;
    Rel.MoveIsOneChange(t0, Slot(comment, "comments"), post, post2);
  }

  lemma Overwrite<K, V>(k: K, a: V, b: V)
    ensures map[k := a][k := b] == map[k := b]
  {
  }

  /** The second move of `MovesCoalesce`: the comment leaves the second post for the third. */
  method SecondMove() returns (store: Store, t: Transaction, post: Record, post2: Record, post3: Record, comment: Record)
    ensures store.Valid() && comment.transaction == t && t != store.defaultTransaction && post != post3
    ensures store.index == map[Key(Comment, 1) := comment, Key(Post, 1) := post, Key(Post, 2) := post2, Key(Post, 3) := post3]
    ensures store.changes == map[Slot(comment, "comments") := Rel.Change(Some(post), Some(post3))]
  {
    store, t, post, post2, post3, comment := FirstMove();
    var slot := Slot(comment, "comments");
    ghost var index, tr := store.index, Rel.Tracker(store.parentOf, store.changes);
    var m3 := store.RemoveObject(post2, "comments", comment);
    assert store.index == index && comment.transaction == t && t != store.defaultTransaction;
    var m4 := store.PushObject(post3, "comments", comment);
    assert store.index == index && comment.transaction == t && t != store.defaultTransaction;
    Rel.MoveAgainKeepsOrigin(tr, slot, post, post2, post3);
    Overwrite(slot, Rel.Change(Some(post), Some(post2)), Rel.Change(Some(post), Some(post3)));
  }

  /** Moving a child from A to B and then from B to C leaves one change, A to C. */
  method MovesCoalesce() returns (store: Store, t: Transaction, child: Record, first: Record, last: Record)
    ensures store.Valid() && store.Find(Comment, 1) == Some(child)
    ensures t != store.defaultTransaction
    ensures store.Find(Post, 1) == Some(first) && store.Find(Post, 3) == Some(last) && first != last
    ensures store.Relationships(t) == map[Slot(child, "comments") := Rel.Change(Some(first), Some(last))]
  {
    var post2;
    store, t, first, post2, last, child := SecondMove();
    store.RelationshipsWhenOwned(t);
  }

  /**
   * Committing the default transaction (through the store, the default
   * transaction itself, or a record's transaction, which is the default one)
   * installs a new default transaction and moves the record into it.
   */
  method CommitRotatesDefaultTransaction() returns (wasInDefault: bool, rotated: bool, inNewDefault: bool)
    ensures wasInDefault && rotated && inNewDefault
  {
    var store := new Store();
    var record := store.Load(Post, 1, map["title" := JString("Ohai")], []);
    var before := store.defaultTransaction;
    wasInDefault := record.transaction == before;
    store.Commit(record.transaction);
    rotated := store.defaultTransaction != before;
    inNewDefault := record.transaction == store.defaultTransaction;
  }
}
