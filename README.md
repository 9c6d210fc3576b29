# ember-data transactions and serializer mapping, modelled in Dafny

This project models two parts of ember-data's behaviour. The unit tests
`transaction_test.js` and `serializer_test.js` pin both of them down.

**Records, transactions and the store** (`record_state.dfy`, `relationships.dfy`, `store.dfy`).
- A record passes through the lifecycle states clean, created, updated,
  deleted, invalid and in flight. Each event (`set`, `deleteRecord`,
  `willCommit`, `recordWasInvalid`, the adapter's acknowledgement, rollback)
  is a partial transition function. An event the state does not handle is the
  error `UnhandledEvent`.
- A transaction is an ownership scope. A record belongs to exactly one
  transaction, which is the store's default transaction until another
  transaction claims it with `add`. A dirty record cannot change transaction
  (`MembershipConflict`).
- Committing a transaction puts its dirty records in flight and sends the
  adapter one request, grouped by operation, together with the transaction's
  pending relationship changes whose child is not already in flight. Those
  changes stay pending until the adapter acknowledges their child. A child
  the backend rejects keeps them, so the next commit sends them again and a
  rollback undoes them. Clean records go back to the default
  transaction; records now in flight stay in the committed transaction.
  Only a commit of the default transaction installs a new default
  transaction, and then every record of the old one moves into it.
  Committing any other transaction leaves the default transaction as it is.
- Rolling a transaction back restores loaded values and clears validity
  errors, for every record of the transaction that is not in flight, and
  undoes the relationship changes of those records. Records
  the transaction created end up deleted. The rolled-back records return to
  the default transaction; records in flight stay where they are. A rollback
  never installs a new default transaction.
- Relationship changes from `pushObject`/`removeObject` on a has-many
  association are coalesced per child. One pending change per child goes from
  its parent before the first move to its current parent. A child that is
  back where it started has no pending change. `Relationships.Tracks` states
  this as an invariant, and the store keeps it (`Store.Valid`).
- The adapter is the log `Store.sent` of commit requests it received. The
  tests' call counters (`createRecords`, `updateRecord`, ...) are functions
  of that log.

**Serializer mapping and transforms** (`serializer.dfy`).
- `map` registers, per model type, wire keys for attribute and association
  names and a primary-key name. A type is named either by itself or by its
  global name.
- `toData` emits the id under the mapped primary key when asked to, and
  every attribute under its mapped key, and nothing else. It calls the
  has-many/belongs-to hooks with the mapped key and the unmapped descriptor.
- `materializeFromData` reads everything back from the mapped keys into the
  record's sinks.
- Transforms are registered by type name. Looking up an unregistered name
  is an error in both directions.

`transaction_scenarios.dfy` and `serializer_scenarios.dfy` replay every test
on a fresh store or serializer. Each scenario returns what its test observes,
and its postcondition is what the test asserts.

Three choices the tests leave open, or pin down, deserve a note:
- `recordWasInvalid` is accepted for a created or updated record whether or
  not it is in flight. The test at `transaction_test.js:250-251` rejects a
  record after `willCommit`, the one at `transaction_test.js:302-304` rejects
  an updated record that was never sent.
- A write to a record in flight is refused with `UnhandledEvent`; it is not
  recorded as a new change. No test writes to a record in flight.
- The default transaction is replaced when the commit is issued, not when it
  is acknowledged. The tests at `transaction_test.js:445-497` observe the new
  default transaction straight after `commit()` returns, with an adapter that
  never acknowledges.

## Model

| member | source | states |
|---|---|---|
| RecordState.SetProperty | packages/ember-data/tests/unit/transaction_test.js:246-256 | a write is accepted exactly when the record is neither deleted nor in flight; it leaves the record dirty and keeps `isNew` and `isValid` |
| RecordState.DeleteRecord | packages/ember-data/tests/unit/transaction_test.js:248-262 | only a clean or updated record not in flight can be deleted; it becomes dirty, deleted, not new and valid |
| RecordState.WillCommit | packages/ember-data/tests/unit/transaction_test.js:250-253 | exactly the dirty records not in flight can be sent; they go in flight, valid, keeping `isNew` and `isDeleted` |
| RecordState.CommitOp | packages/ember-data/tests/unit/transaction_test.js:27-72 | a record is in some adapter batch exactly when it can be sent; in the create batch exactly when it is new, in the delete batch exactly when it is deleted |
| RecordState.CommitState | packages/ember-data/tests/unit/transaction_test.js:94-99 | a commit keeps dirtiness, puts every dirty record in flight and leaves clean records untouched |
| RecordState.DidCommit | packages/ember-data/tests/unit/transaction_test.js:79-82 | only a record in flight can be acknowledged; it becomes clean, keeping `isDeleted` |
| RecordState.BecameInvalid | packages/ember-data/tests/unit/transaction_test.js:302-306 | a created or updated record, and no other, can be rejected; it becomes dirty and invalid, keeping `isNew` |
| RecordState.Rollback | packages/ember-data/tests/unit/transaction_test.js:269-284 | every record not in flight can be rolled back; it ends clean and valid, deleted exactly when it was new or already gone |
| RecordState.EditsDoNotChangeRollback | packages/ember-data/tests/unit/transaction_test.js:241-284 | after any accepted sequence of writes and deletes, rollback gives the same state as before them |
| RecordState.CommitCycleCleans | packages/ember-data/tests/unit/transaction_test.js:74-104 | a dirty record that is committed and acknowledged ends clean and valid, deleted exactly when it was deleted |
| RecordState.IsDirty | packages/ember-data/tests/unit/transaction_test.js:255-283 | `isDirty`: the record has a change the backend has not acknowledged |
| RecordState.IsNew | packages/ember-data/tests/unit/transaction_test.js:260-266 | `isNew`: never saved; a new record always has a change pending and is not deleted |
| RecordState.IsDeleted | packages/ember-data/tests/unit/transaction_test.js:262-283 | `isDeleted`: a deleted record is never invalid |
| RecordState.IsValid | packages/ember-data/tests/unit/transaction_test.js:264-282 | `isValid`: a rejected record is always dirty |
| RecordState.IsInFlight | packages/ember-data/tests/unit/transaction_test.js:250-253 | a record whose commit is outstanding is dirty and not rejected |
| Relationships.Assign | packages/ember-data/tests/unit/transaction_test.js:369 | the slot gets the given parent and no other slot changes |
| Relationships.AssignAll | packages/ember-data/tests/unit/transaction_test.js:380 | every listed slot gets the parent, the other slots keep theirs |
| Relationships.Coalesce | packages/ember-data/tests/unit/transaction_test.js:399-443 | a move folds into the slot's pending change: the first old parent is kept, the new parent replaced, and the change dropped once it is back where it began; other slots untouched |
| Relationships.Step | packages/ember-data/tests/unit/transaction_test.js:369-390 | a push puts the child under the parent; a remove takes it from that parent only, and changes nothing when it is elsewhere |
| Relationships.StepFrame | packages/ember-data/tests/unit/transaction_test.js:369-390 | an event changes neither the parent nor the pending change of any other slot |
| Relationships.Replay | packages/ember-data/tests/unit/transaction_test.js:433-436 | a slot no event names keeps its parent and its pending change |
| Relationships.Tracks | packages/ember-data/tests/unit/transaction_test.js:343-355 | the pending changes are one change per slot whose parent differs from its baseline parent, from that parent to the current one |
| Relationships.FreshTracks | packages/ember-data/tests/unit/transaction_test.js:364-367 | with no event seen, the tracker is exact for its own parents |
| Relationships.StepTracks | packages/ember-data/tests/unit/transaction_test.js:369-436 | every push or remove keeps the pending changes equal to the net difference from the baseline |
| Relationships.ReplayTracks | packages/ember-data/tests/unit/transaction_test.js:433-436 | any sequence of events keeps the pending changes equal to the net difference |
| Relationships.NetChange | packages/ember-data/tests/unit/transaction_test.js:399-443 | after any events, a child has no change if its parent is back where it started, else one change from its first to its last parent |
| Relationships.Revert | packages/ember-data/tests/unit/transaction_test.js:269 | the reverted slots take the old parent of their pending change, the others keep theirs |
| Relationships.RevertRestoresBase | packages/ember-data/tests/unit/transaction_test.js:269 | rolling back a group of slots restores their baseline parents and keeps the tracker exact |
| Relationships.RevertAllIsBase | packages/ember-data/tests/unit/transaction_test.js:269 | reverting every pending change gives back exactly the baseline |
| Relationships.SettleTracks | packages/ember-data/tests/unit/transaction_test.js:79-82 | acknowledging a group of slots makes their current parents the baseline and keeps the tracker exact |
| Relationships.Settle | packages/ember-data/tests/unit/transaction_test.js:79-82 | the baseline after an acknowledgement: the settled slots take their current parent, every other slot keeps its baseline parent |
| Relationships.LoadTracks | packages/ember-data/tests/unit/transaction_test.js:380 | loading parent data for a group of slots keeps the tracker exact |
| Relationships.PushGivesOneChange | packages/ember-data/tests/unit/transaction_test.js:357-376 | pushing a parentless child gives the single change null to parent |
| Relationships.RemoveGivesOneChange | packages/ember-data/tests/unit/transaction_test.js:378-397 | removing a child from its parent gives the single change parent to null |
| Relationships.RemoveThenPushCancels | packages/ember-data/tests/unit/transaction_test.js:399-415 | removing a child and pushing it back leaves no change |
| Relationships.ChainedMovesCoalesce | packages/ember-data/tests/unit/transaction_test.js:417-443 | moves from a to b and from b to c leave the single change a to c |
| Relationships.MoveIsOneChange | packages/ember-data/tests/unit/transaction_test.js:433-434 | a remove followed by a push onto another parent is one reassignment, coalesced once |
| Relationships.MoveAgainKeepsOrigin | packages/ember-data/tests/unit/transaction_test.js:435-436 | a second move of a child whose pending change is a to b gives the change a to c, whatever other changes are pending |
| Transactions.TypesOf | packages/ember-data/tests/unit/transaction_test.js:32-36 | the types of a batch are exactly the types of its records |
| Transactions.TypesOfBound | packages/ember-data/tests/unit/transaction_test.js:32-36 | a batch needs at most one per-type call per record, and at least one as soon as it has a record |
| Transactions.RecordCalls | packages/ember-data/tests/unit/transaction_test.js:79-87 | no per-record call for an operation exactly when no sent request has a record in that batch |
| Transactions.BatchCalls | packages/ember-data/tests/unit/transaction_test.js:27-46 | per-type batch calls never exceed per-record calls and are zero exactly when those are |
| Transactions.RequestFor | packages/ember-data/tests/unit/transaction_test.js:27-46 | the request for one record is non-empty exactly when it can be sent, and puts it in the batch of its operation only |
| Transactions.CallsAfterSend | packages/ember-data/tests/unit/transaction_test.js:41-44 | sending a request adds its batch to both call counts |
| Transactions.Record.constructor | packages/ember-data/tests/unit/transaction_test.js:39 | a record starts with the given identity, state, values and owner and no errors |
| Transactions.Store.constructor | packages/ember-data/tests/unit/transaction_test.js:19 | a new store is valid, empty and has a fresh default transaction |
| Transactions.Store.Valid | packages/ember-data/tests/unit/transaction_test.js:343-355 | the store invariant: each indexed record is in the store under its own type and id, each pending change's child is a record of the store, and the pending changes are exactly the net moves from the baseline parents (`Relationships.Tracks`) |
| Transactions.Store.NewTransaction | packages/ember-data/tests/unit/transaction_test.js:18-25 | `store.transaction()` returns a new transaction |
| Transactions.Store.Relationships | packages/ember-data/tests/unit/transaction_test.js:343-355 | a transaction's relationships are exactly the pending changes whose child it owns |
| Transactions.Store.Unsent | packages/ember-data/tests/unit/transaction_test.js:343-355 | the relationships of `t` whose child is not in flight: exactly those of `t`'s changes, with their values |
| Transactions.Store.PendingRequest | packages/ember-data/tests/unit/transaction_test.js:27-130 | a commit of `t` would send exactly `t`'s records in the batch of their operation, with `t`'s relationship changes whose child is not in flight |
| Transactions.Store.PendingOfOnlyRecord | packages/ember-data/tests/unit/transaction_test.js:27-46 | in a one-record store, a commit sends that record's request exactly when `t` owns it |
| Transactions.Store.RelationshipsWhenOwned | packages/ember-data/tests/unit/transaction_test.js:369-376 | when `t` owns every changed child, its relationships are all the pending changes |
| Transactions.Store.RelationshipsAreNetMoves | packages/ember-data/tests/unit/transaction_test.js:343-355 | a child of `t` has a relationship exactly when its parent differs from its baseline parent, and it goes from that parent to the current one |
| Transactions.Store.Find | packages/ember-data/tests/unit/transaction_test.js:62 | `find` returns the loaded record with that type and id exactly when there is one |
| Transactions.Store.Load | packages/ember-data/tests/unit/transaction_test.js:59 | a new key gives a fresh clean record owned by the default transaction; a known key refreshes the loaded data; the has-many entries whose child is already loaded become baseline parents |
| Transactions.Store.Upsert | packages/ember-data/tests/unit/transaction_test.js:225-228 | the record side of a load; every other record is unchanged |
| Transactions.Store.LinkChildren | packages/ember-data/tests/unit/transaction_test.js:380 | loaded children go under the parent with no pending change |
| Transactions.Store.CreateRecordIn | packages/ember-data/tests/unit/transaction_test.js:39 | `transaction.createRecord` adds a fresh new record, no id, owned by `t`; nothing else changes |
| Transactions.Store.CreateRecord | packages/ember-data/tests/unit/transaction_test.js:165 | `store.createRecord` is the same in the default transaction |
| Transactions.Store.Add | packages/ember-data/tests/unit/transaction_test.js:162-199 | `add` fails exactly for a dirty record owned by another transaction; otherwise `t` owns the record |
| Transactions.Store.Remove | packages/ember-data/tests/unit/transaction_test.js:149 | `remove` fails exactly for a dirty member; a clean member returns to the default transaction |
| Transactions.Store.SetAttribute | packages/ember-data/tests/unit/transaction_test.js:65 | a write succeeds exactly when the state accepts it, then sets the value and the new state; a failed write changes nothing |
| Transactions.Store.DeleteRecord | packages/ember-data/tests/unit/transaction_test.js:123 | `deleteRecord` succeeds exactly when the state accepts it |
| Transactions.Store.SendWillCommit | packages/ember-data/tests/unit/transaction_test.js:250 | `send('willCommit')` succeeds exactly when the state accepts it |
| Transactions.Store.RecordWasInvalid | packages/ember-data/tests/unit/transaction_test.js:251-253 | `recordWasInvalid` succeeds exactly for a created or updated record and stores the errors |
| Transactions.Store.DidCommitRecord | packages/ember-data/tests/unit/transaction_test.js:79-82 | acknowledging a record in flight makes its values its data, gives a new record its assigned id, moves it to the default transaction and settles its changes |
| Transactions.Store.Acknowledge | packages/ember-data/tests/unit/transaction_test.js:82 | the record side of an acknowledgement |
| Transactions.Store.AdoptId | packages/ember-data/tests/unit/transaction_test.js:82 | a new record takes the assigned id and enters the identity map |
| Transactions.Store.SettleChanges | packages/ember-data/tests/unit/transaction_test.js:79-82 | on acknowledgement, the settled slots lose their pending changes and the store stays valid |
| Transactions.Store.Commit | packages/ember-data/tests/unit/transaction_test.js:41-44 | the adapter receives `t`'s pending request unless it is empty; `t`'s records take `CommitState`; clean ones return to the default transaction; committing the default transaction rotates it; the pending relationship changes and their baseline stay as they are until acknowledgement; other records untouched |
| Transactions.Store.Send | packages/ember-data/tests/unit/transaction_test.js:32-36 | the adapter log grows by the request exactly when it is non-empty |
| Transactions.Store.CommitMembers | packages/ember-data/tests/unit/transaction_test.js:94-104 | the record side of a commit, for every member and no other record |
| Transactions.Store.CommitStore | packages/ember-data/tests/unit/transaction_test.js:41 | `store.commit()` commits the default transaction and installs a fresh one, leaving the pending relationship changes to their acknowledgement |
| Transactions.Store.Rollback | packages/ember-data/tests/unit/transaction_test.js:269-289 | every member of `t` not in flight gets its data back, no errors, the `Rollback` state and the default transaction; the relationship changes of those members are undone and their slots get their baseline parents back; records in flight and their changes are untouched |
| Transactions.Store.RevertChanges | packages/ember-data/tests/unit/transaction_test.js:269 | undone slots go back to their baseline parents with no pending change |
| Transactions.Store.RollbackMembers | packages/ember-data/tests/unit/transaction_test.js:269-289 | the record side of a rollback, for every member and no other record |
| Transactions.Store.PushObject | packages/ember-data/tests/unit/transaction_test.js:369 | `pushObject` applies one `Added` event to the tracker and dirties the child, unless the child is already there; it fails exactly when the child refuses the write |
| Transactions.Store.RemoveObject | packages/ember-data/tests/unit/transaction_test.js:390 | `removeObject` applies one `Removed` event, symmetrically |
| TransactionScenarios.NewTransactionIsDistinct | packages/ember-data/tests/unit/transaction_test.js:18-25 | a new transaction is not the default one |
| TransactionScenarios.CreatedRecordIsCommittedByItsTransaction | packages/ember-data/tests/unit/transaction_test.js:27-46 | `createRecords` is called 0 times by `store.commit()`, then once by `transaction.commit()` |
| TransactionScenarios.UpdatedRecordIsCommittedByItsTransaction | packages/ember-data/tests/unit/transaction_test.js:48-72 | `updateRecords`: 0 times after `store.commit()`, once after `transaction.commit()` |
| TransactionScenarios.SavedRecordLeavesItsTransaction | packages/ember-data/tests/unit/transaction_test.js:74-104 | one `createRecord`; after the save a change is not committed by the transaction but once by the store |
| TransactionScenarios.DeletedRecordIsCommittedByItsTransaction | packages/ember-data/tests/unit/transaction_test.js:106-130 | `deleteRecords`: 0 times after `store.commit()`, once after `transaction.commit()` |
| TransactionScenarios.RemovedRecordIsCommittedByTheStore | packages/ember-data/tests/unit/transaction_test.js:132-160 | after `remove`, `updateRecord` is not called by the transaction and is called once by the store |
| TransactionScenarios.CreatedRecordCannotMove | packages/ember-data/tests/unit/transaction_test.js:162-171 | adding a new record to another transaction fails |
| TransactionScenarios.UpdatedRecordCannotMove | packages/ember-data/tests/unit/transaction_test.js:173-185 | adding an updated record fails |
| TransactionScenarios.DeletedRecordCannotMove | packages/ember-data/tests/unit/transaction_test.js:187-199 | adding a deleted record fails |
| TransactionScenarios.CleanRecordReturnsToDefault | packages/ember-data/tests/unit/transaction_test.js:201-213 | a clean record is back in the default transaction after its transaction commits |
| TransactionScenarios.EditsBeforeRollback | packages/ember-data/tests/unit/transaction_test.js:241-267 | the preconditions: all six records dirty, the two created ones new, with the new names, deleted or invalid as the test expects |
| TransactionScenarios.RollbackRestoresUpdated | packages/ember-data/tests/unit/transaction_test.js:269-273 | both updated records are clean with their loaded names in the default transaction, and nothing was sent |
| TransactionScenarios.RollbackUndeletesAndRevalidates | packages/ember-data/tests/unit/transaction_test.js:274-289 | the deleted record is clean and not deleted; the invalid one is clean, valid, with its loaded name |
| TransactionScenarios.RollbackDeletesCreated | packages/ember-data/tests/unit/transaction_test.js:275-285 | the created record is clean, deleted and back in the default transaction; the rejected created record is valid and deleted |
| TransactionScenarios.RollbackRevalidates | packages/ember-data/tests/unit/transaction_test.js:292-311 | invalid before the rollback, valid after |
| TransactionScenarios.RejectedRemovalStaysPending | packages/ember-data/tests/unit/transaction_test.js:292-311 | a removal whose child the backend rejects is offered again by the next commit, and a rollback puts the child back under its parent with no change left |
| TransactionScenarios.PushRecordsChange | packages/ember-data/tests/unit/transaction_test.js:357-376 | the transaction's relationships are the single change, for the slot of the record `find(Comment, 1)` gives, from null to the record `find(Post, 1)` gives |
| TransactionScenarios.RemoveRecordsChange | packages/ember-data/tests/unit/transaction_test.js:378-397 | the single change, for `find(Comment, 1)`, from `find(Post, 1)` to null |
| TransactionScenarios.RemoveThenPushLeavesNoChange | packages/ember-data/tests/unit/transaction_test.js:399-415 | no relationship left |
| TransactionScenarios.MovesCoalesce | packages/ember-data/tests/unit/transaction_test.js:417-443 | the single change, for `find(Comment, 1)`, from `find(Post, 1)` to `find(Post, 3)`, two distinct records |
| TransactionScenarios.CommitRotatesDefaultTransaction | packages/ember-data/tests/unit/transaction_test.js:445-497 | the record starts in the default transaction; after the commit there is a new default and the record is in it |
| Serializers.KeyFor | packages/ember-data/tests/unit/serializer_test.js:62-68 | the mapped key of a name, or the name itself when the mapping has none |
| Serializers.PrimaryKeyOf | packages/ember-data/tests/unit/serializer_test.js:186-193 | the mapped primary key, or `id` when the mapping has none |
| Serializers.DefaultKeys | packages/ember-data/tests/unit/serializer_test.js:62-68 | with no mapping, every name is its own wire key and the id travels under `id` |
| Serializers.Read | packages/ember-data/tests/unit/serializer_test.js:169-183 | the value under a key, `undefined` when the payload lacks it |
| Serializers.EmitsId | packages/ember-data/tests/unit/serializer_test.js:195-202 | the id is written when `includeId` is asked for and the record has an id |
| Serializers.Resolve | packages/ember-data/tests/unit/serializer_test.js:62-68 | the mapping registered for the type itself applies, else the one under its global name, else the default |
| Serializers.MapLeavesOtherTypes | packages/ember-data/tests/unit/serializer_test.js:62-84 | registering a mapping changes the mapping of no type it does not name |
| Serializers.MapApplies | packages/ember-data/tests/unit/serializer_test.js:62-68 | a registration for the type, or under its global name, is the mapping that applies |
| Serializers.AddAttributes | packages/ember-data/tests/unit/serializer_test.js:78-84 | the payload gains exactly the wire keys, leaves other keys alone and, absent collisions, holds each attribute's value under its key |
| Serializers.HookCalls | packages/ember-data/tests/unit/serializer_test.js:126-151 | one hook call per association, in order, with its kind, the record, the mapped key and the unmapped descriptor |
| Serializers.ReadAttributesMeaning | packages/ember-data/tests/unit/serializer_test.js:102-106 | exactly the attribute names are read, each from its wire key |
| Serializers.ReadAttributes | packages/ember-data/tests/unit/serializer_test.js:87-107 | the reference reading of the attributes from their wire keys that `MaterializeAttributes` is proved equal to; `ReadAttributesMeaning` states what it holds |
| Serializers.ReadAssociationsMeaning | packages/ember-data/tests/unit/serializer_test.js:169-183 | exactly the association names of the kind are read, each from its wire key |
| Serializers.ReadAssociations | packages/ember-data/tests/unit/serializer_test.js:154-184 | the reference reading of the associations of one kind from their wire keys that `MaterializeAssociations` is proved equal to; `ReadAssociationsMeaning` states what it holds |
| Serializers.AttributesRoundTrip | packages/ember-data/tests/unit/serializer_test.js:58-107 | materializing what `toData` produced gives back every attribute value under its own name |
| Serializers.IdRoundTrip | packages/ember-data/tests/unit/serializer_test.js:186-222 | the id written under the mapped primary key is the id read back |
| Serializers.Serializer.constructor | packages/ember-data/tests/unit/serializer_test.js:47 | a new serializer has no mapping and no transform |
| Serializers.Serializer.Map | packages/ember-data/tests/unit/serializer_test.js:62-68 | `map` records the configuration and leaves the mapping of every type it does not name as it was |
| Serializers.Serializer.ToData | packages/ember-data/tests/unit/serializer_test.js:78-84 | the payload holds exactly the attributes' wire keys, plus the primary key when the id is asked for and present; the values and the hook calls as above |
| Serializers.Serializer.ExtractId | packages/ember-data/tests/unit/serializer_test.js:217-221 | the id is read from the mapped primary key, undefined when absent |
| Serializers.Serializer.ExtractAttributes | packages/ember-data/tests/unit/serializer_test.js:102-106 | every attribute name, read from its wire key |
| Serializers.Serializer.ExtractAssociations | packages/ember-data/tests/unit/serializer_test.js:169-183 | every association name of the kind, read from its wire key |
| Serializers.Serializer.MaterializeFromData | packages/ember-data/tests/unit/serializer_test.js:102-103 | the record's id, attribute, has-many and belongs-to sinks receive exactly what the extract functions give |
| Serializers.Serializer.MaterializeAttributes | packages/ember-data/tests/unit/serializer_test.js:8-15 | the `eachAttribute` loop hands every attribute to the sink |
| Serializers.Serializer.MaterializeAssociations | packages/ember-data/tests/unit/serializer_test.js:17-24 | the `eachAssociation` loop hands each association to the sink of its kind |
| Serializers.Serializer.RegisterTransform | packages/ember-data/tests/unit/serializer_test.js:228-236 | the transform is registered; both lookups for its name then apply it |
| Serializers.Serializer.TransformValueToData | packages/ember-data/tests/unit/serializer_test.js:250-259 | an error exactly when no transform has that name, else the transform's outgoing conversion |
| Serializers.Serializer.TransformValueFromData | packages/ember-data/tests/unit/serializer_test.js:247-255 | an error exactly when no transform has that name, else the transform's incoming conversion |
| Serializers.MockModel.constructor | packages/ember-data/tests/unit/serializer_test.js:2-6 | a mock record starts with empty sinks |
| Serializers.MockModel.MaterializeId | packages/ember-data/tests/unit/serializer_test.js:26-28 | the id sink takes the id |
| Serializers.MockModel.MaterializeAttribute | packages/ember-data/tests/unit/serializer_test.js:30-32 | the attribute sink gains one entry |
| Serializers.MockModel.MaterializeHasMany | packages/ember-data/tests/unit/serializer_test.js:34-36 | the has-many sink gains one entry |
| Serializers.MockModel.MaterializeBelongsTo | packages/ember-data/tests/unit/serializer_test.js:38-40 | the belongs-to sink gains one entry |
| SerializerScenarios.MaterializeNew | packages/ember-data/tests/unit/serializer_test.js:99-103 | materializing a fresh record leaves exactly the extracted values in its sinks |
| SerializerScenarios.AttributeMappings | packages/ember-data/tests/unit/serializer_test.js:59-68 | Person and Address each get their own attribute mapping |
| SerializerScenarios.MappedAttributesSerialize | packages/ember-data/tests/unit/serializer_test.js:58-85 | `{FIRST_NAME: "Tom"}` and `{first_name: "Spruce"}` |
| SerializerScenarios.MappedAttributesMaterialize | packages/ember-data/tests/unit/serializer_test.js:87-107 | `{firstName: "Tom"}` and `{firstName: "Spruce"}` |
| SerializerScenarios.AssociationMappings | packages/ember-data/tests/unit/serializer_test.js:112-121 | Person and Address each get their own association mapping |
| SerializerScenarios.MappedRelationshipsSerialize | packages/ember-data/tests/unit/serializer_test.js:109-152 | each hook is called once, with the serialized person or address itself, `ADDRESSES!` or `MY_PEEP`, and the unmapped descriptor |
| SerializerScenarios.MappedRelationshipsMaterialize | packages/ember-data/tests/unit/serializer_test.js:154-184 | `hasMany = {addresses: [1, 2, 3]}` and `belongsTo = {person: 1}` |
| SerializerScenarios.PrimaryKeyMappings | packages/ember-data/tests/unit/serializer_test.js:187-193 | Person and Address each get their own primary key |
| SerializerScenarios.MappedPrimaryKeySerialize | packages/ember-data/tests/unit/serializer_test.js:186-203 | `{__id__: 1}` and `{ID: 2}` |
| SerializerScenarios.MappedPrimaryKeyMaterialize | packages/ember-data/tests/unit/serializer_test.js:205-222 | materialized ids 1 and 2 |
| SerializerScenarios.RegisteredTransforms | packages/ember-data/tests/unit/serializer_test.js:244-260 | `fromData` and `toData` come out of the registered transform; the unknown name is an error both ways |

## Left out

- The adapter's network traffic and asynchronous callbacks. The adapter is
  the log of commit requests, and acknowledgements (`didCreateRecord`, ...)
  are explicit calls to `DidCommitRecord`.
- The Ember object model: `get`/`set` observers, computed flags and
  `DS.Transaction.detectInstance` (`transaction_test.js:24`). In Dafny a
  `Transaction` is an instance of its class by typing.
- `destroy()` of transactions, stores, adapters and serializers, the QUnit
  harness (`expect`, `raises`, `QUnit.push`) and the `window.Address` global.
  The global is modelled as the optional `globalName` of a model type; a
  `raises` is an `Err`/`Fail` result.
- The relationship descriptor objects (`getOldParent`, `getNewParent`,
  `getChild`). A change is keyed by its child slot and holds its old and new
  parent.
- Ids are natural numbers; string ids are not modelled.
- Transforms are not applied inside `toData` or `materializeFromData`. The
  tests call them only directly, and their conversions are arbitrary Dafny
  functions.
- The `hash` argument handed to the `addHasMany`/`addBelongsTo` hooks, and
  whatever a hook writes into it. The base hooks are overridden in the test,
  so the model records each call instead.
- Attribute and association order: JavaScript object-key order is modelled
  as the declaration order of a sequence.
- When both a type and its global name have a registration, the type's own
  registration wins. The tests never register both.
- `toData` emits the id only when the record has one (neither undefined nor
  null).
- Serializers.AttributesRoundTrip: holds only when no two attributes share a
  wire key. With a collision the later attribute's value wins in the payload.
- Serializers.IdRoundTrip: holds only when no attribute is mapped onto the
  primary key, which an attribute would overwrite.
- Transactions.Store.Load: a has-many entry whose child is not loaded yet is
  dropped; loading the child later does not put it under the parent. The
  tests always load the child first (`transaction_test.js:379-380`).
- Transactions.Store.Commit: only a commit of the default transaction
  installs a new default transaction; committing another transaction keeps
  the default, and records that go in flight stay in the committed
  transaction. A commit leaves the transaction's relationship changes
  pending, and only the acknowledgement of their child settles them. A
  commit of the same transaction before that acknowledgement does not send
  them a second time. The test at `transaction_test.js:201-213` checks only that a
  clean record is in the default transaction after its transaction commits,
  which holds whether or not that commit replaces the default.
- Transactions.Store.Rollback: records in flight keep their state and their
  transaction, and the default transaction is not replaced. No test rolls
  back a record in flight. The relationship changes of a record in flight
  are not undone either. Undoing relationship changes on rollback is
  modelled but not exercised by the tests.
