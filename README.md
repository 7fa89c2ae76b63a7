# mongostate transaction coordinator in Dafny

mongostate layers multi-document transactions on a MongoDB-style store that is
atomic for one document at a time. A `Transaction` works through proxies
returned by `use(Model)`:

- every entity it touches is locked in a lock collection;
- it is copied into a per-model sub-state ("shadow") collection, tagged with
  the transaction id;
- every write goes to that shadow copy and is logged in the transaction's
  record.

There are two ways to end:

- `finish` replays the log into the real collections, newest action first and
  one write per entity, then clears the shadow copies and releases the locks;
- `cancel` discards the shadow copies and releases the locks without touching
  the real collections.

The record moves through `pending → committed → activated → finished`, or
through `pending → rollback → cancelled`.

The project models two versions of the coordinator: index.js, and the earlier
index_bak.js, where one `commit` ends in `committed`.

Modules:

- `Constants` and `Errors`: the error kinds, states and operations, and the
  coordinator's error messages.
- `Store`: documents, keys, the transaction record and the shared store `Db`.
  `Db` has four maps:
  - `entities`: the real collections;
  - `shadow`: shadow copies with their `__t` tag;
  - `locks`;
  - `txns`: the transaction collection.

  The lock table is a map, so the unique (model, entity) index of the lock
  collection holds by construction.
- `Replay`: the log replay as a function, with its properties proved.
- `Shadows`: what a proxy read stages for one key.
- `Mongostate` and `MongostateBak`: one class `Transaction` per source file.
  Each class has the instance fields `usedModels`, `trying` and `tried`, plus a
  method per coordinator operation. Each method is proved against the
  functions above.

`Db.Valid()` is the invariant every method keeps: a lock's owner always has a
record that is neither finished nor cancelled. Stronger invariants do not hold
for the code. For example, "every shadow copy belongs to a locked entity" fails
because `forceUseModel` registers a model without persisting its name, so
another instance can clean up a transaction and leave other copies behind.

In four places the code behaves differently from what a reader of the design
might expect. The model follows the code:

- Removing an entity the transaction cannot see ends in a JavaScript
  `TypeError`, reading `_id` of `null` (index.js:170). It does not raise
  `INVALID_ENTITY_STATE`.
- Updating such an entity returns `null` (index.js:181).
- A model's name is persisted in `usedModelNames` on the first proxy operation
  (index.js:141), not when `use` is called.
- `finish` accepts only `pending` and `committed`. A `finish` that fails after
  activation therefore leaves a record that neither `finish` nor `cancel`
  accepts.

In index_bak.js, `commit` writes the real collections before anything is
persisted. If the replay stops part way, the record is still `pending` and the
partial writes stay. The replay stops only at a logged model this instance
never registered, and the touch that logged it normally saved that model's name
in the record. So the `cancel` that `try` then runs sets `rollback`, refuses to
clear the copies ("… should be used first!") and leaves the record `rollback`
with its locks and copies over the partial writes. The record ends `cancelled`
only when that model was registered with force, and so never saved in the
record. index.js avoids the partial writes by persisting `committed` first.

## Model

| member | source | states |
|---|---|---|
| Store.Bare | index.js:292-294 | the copy lacks `__v` and `__t` and keeps every other field unchanged |
| Store.RewriteUnset | index.js:187-194 | after the rewrite there is no `$unset`; every unset field is `$set` to null; other `$set` fields and operators are kept |
| Store.Upsert | index.js:296-302 | a create gives the shadow document; an update `$set`s each of its fields and keeps the other old fields |
| Store.AddToSet | index.js:100-104 | `$addToSet`: the name is present afterwards, a name already present leaves the list unchanged, no other name is added, and the existing order is kept |
| Store.ReleaseLocks | index.js:392-394 | no lock of the transaction remains; every lock of another transaction is kept |
| Store.ClearShadows | index.js:365-368 | no copy tagged with the transaction remains in a cleared model; every other copy is kept |
| Store.ClearShadowsStep | index.js:365-368 | clearing model by model gives the same result as clearing them all at once, in any order |
| Store.Db.InsertLock | lib/schemas/lock.js:10 | the unique index refuses exactly a key that is already locked; otherwise the key is locked for the transaction |
| Replay.Reverse | index.js:282 | the log is walked from the newest action to the oldest |
| Replay.RunAt | index.js:283-306 | the replay writes each unseen key once, as its first action in walk order decides |
| Replay.FirstOpOfReverse | index.js:282-286 | the first action for a key in the reversed log is the last one logged for it |
| Replay.ReplayDecidedByLastAction | index.js:281-306 | each key's final real value is decided by its last logged action and its shadow copy: the copy (created or `$set`), a delete after a remove, or unchanged |
| Replay.ReplayDoneIff | index.js:287-288 | the replay finishes if and only if every logged model is registered; otherwise it stops with `Model … has not used` |
| Replay.ReplayTouchesOnlyLoggedKeys | index.js:283-306 | an entity with no logged action is never written, even by a replay that stops |
| Replay.ReplayIdempotent | index.js:281-306 | replaying a finished replay's result again changes nothing |
| Replay.PoliciesAgree | index_bak.js:330-339 | the two replay variants agree when every logged key without a shadow copy was last removed or is absent |
| Shadows.Stage | index.js:148-157 | corrected staging (see Findings): a new lock drops any stale copy and copies the real entity, tagged with the transaction; a lock already held leaves the shadow store as it is and returns its copy |
| Shadows.RemovedEntityReappears | index.js:151-156 | as written, reading an entity removed earlier in the transaction copies it back, and the replay keeps it |
| Shadows.RemoveThenReadExample | index.js:151-156 | a concrete remove-then-read of `person:p1` that resurrects it |
| Shadows.RemovedEntityStaysRemoved | index.js:148-157 | with the copy on the first touch only, the removed entity stays invisible and the replay deletes it |
| Shadows.StageBak | index_bak.js:176-185 | a shadow copy is returned whoever tagged it; without one, the real entity is copied into the shadow store and returned itself |
| Shadows.BakFirstTouchReturnsReal | index_bak.js:176-185 | the first touch returns the real document, and the next touch the copy made from it |
| Mongostate.Acquire | index.js:142-157 | a key another transaction holds is refused with `ENTITY_LOCKED` and nothing changes; otherwise the key is locked for the transaction and the result is its view of the entity (corrected staging: the copy is made on the first touch only, see Findings) |
| Mongostate.Touch | index.js:131-158 | refused outside `try` (`INVALID_OPERATION`) and on a record that is not pending; otherwise the record is created if missing, the model is registered, and the key is locked; other records are unchanged (corrected staging: the copy is made on the first touch only, see Findings) |
| Mongostate.OthersLockedOut | index.js:70-76 | after one transaction touches a key, another transaction's touch of it fails and changes no lock and no copy |
| Mongostate.ReadsOwnUpdate | index.js:179-196 | a read after `UpdateStep` returns the shadow copy with the rewritten patch applied, and stages nothing new |
| Mongostate.RemovedStaysInvisible | index.js:164-173 | a read after `RemoveStep` finds nothing and stages nothing new (corrected staging: the copy is made on the first touch only, see Findings) |
| Mongostate.Untagged | index.js:54-58 | the stored document keeps every field except the `__t` tag |
| Mongostate.RemoveStep | index.js:164-173 | after the touch: an invisible entity fails reading `_id` of null and changes nothing; otherwise one REMOVE is logged, the copy deleted and the touch's view returned; no other record, lock or key changes |
| Mongostate.UpdateStep | index.js:179-196 | after the touch: an invisible entity gives null and changes nothing; otherwise one UPDATE is logged, the copy becomes the rewritten patch applied to it, with its tag kept, and the old or new document is returned |
| Mongostate.CreateStep | index.js:202-217 | after the touch: succeeds exactly when the entity is invisible, logging one CREATE and storing one copy tagged with the transaction; a visible id fails with `INVALID_ENTITY_STATE` and changes nothing |
| Mongostate.Step | index.js:241-249 | one call of the block: a proxy call is its touch followed by its step; no call moves its record's state except by creating it pending, unregisters a model or changes another transaction's record |
| Mongostate.Block | index.js:258-262 | the block runs call by call from the state before `try` and stops at its first error: one result per call without error, fewer with one, and the last call's result is that error |
| Mongostate.Next | index.js:258-262 | a non-empty block: its front, then its last call unless the front failed |
| Mongostate.BlockStopsAtError | index.js:258-262 | once a prefix of the block fails, the rest of the block runs nothing |
| Mongostate.BlockExtend | index.js:258-262 | one more call of a block that has not failed extends it by that call's state and result |
| Mongostate.BlockKeepsRecords | index.js:131-217 | the whole block leaves its record's state as it was or a fresh pending record, registers models only, and changes no other transaction's record |
| Mongostate.FinishOutcome | index.js:329-343 | `finish` as a function of the store: on success the record is `finished`, owns no lock and no copy in a registered model; the real collections are the replay's result whenever the state is accepted; a failure keeps locks and copies |
| Mongostate.CancelOutcome | index.js:371-390 | `cancel` as a function of the store: the real collections never change; on success the record is `cancelled` with the message and owns no lock and no copy in a registered model; a failure keeps locks and copies |
| Mongostate.Settled | index.js:258-268 | how `try` ends after its block: an error cancels and the real collections are untouched; on a pending record with every model registered that error is rethrown with the record cancelled, locks released and copies cleared; a block without error finishes, writing the replay into the real collections, and on a full finish returns the block's results with the record `finished` |
| Mongostate.TryEnds | index.js:252-271 | for every state and block, `try`'s outcome keeps `TryPromise`: success gives one result per call with the record finished and no lock owned; an empty block without a record changes nothing; a newly cancelled record carries the rethrown message |
| Mongostate.Transaction.constructor | index.js:28-34 | the id is the `id` option unless that is missing or empty, and a fresh id otherwise; no model is registered |
| Mongostate.Transaction.InitTransaction | index.js:115-129 | a missing record is created as `NewRecord`: pending, with no model names, actions or error, and carrying the `biz` context; a cancelled or finished one is refused with `INVALID_TRANSACTION_STATE` |
| Mongostate.Transaction.AddUsedModel | index.js:96-106 | registers the model, and persists its name only when the instance had not registered it yet |
| Mongostate.Transaction.ForceUseModel | index.js:108-113 | registers the model without persisting anything |
| Mongostate.Transaction.PushAction | index.js:90-94 | appends the action to the record's log |
| Mongostate.Transaction.Lock | index.js:60-88 | a key held by another transaction fails with `ENTITY_LOCKED` and the locks are unchanged; otherwise the key maps to this transaction, and the result is true exactly when the lock is new |
| Mongostate.Transaction.StageEntity | index.js:148-157 | the shadow store and the view are the ones `Shadows.Stage` gives (corrected staging: the copy is made on the first touch only, see Findings) |
| Mongostate.Transaction.LockAndStage | index.js:142-157 | the new state and result are the ones `Acquire` gives (corrected staging: the copy is made on the first touch only, see Findings) |
| Mongostate.Transaction.FindOneAndLock | index.js:131-158 | the new state and result are the ones `Touch` gives (corrected staging: the copy is made on the first touch only, see Findings) |
| Mongostate.Transaction.FindOneAndRemove | index.js:164-173 | logs one remove, deletes the shadow copy and returns it; an invisible entity fails reading `_id` of null |
| Mongostate.Transaction.FindOneAndUpdate | index.js:179-196 | logs one update and applies the rewritten patch to the shadow copy; returns the old or the new document; an invisible entity gives null and logs nothing |
| Mongostate.Transaction.Create | index.js:202-217 | the key is `CreateId`'s: the document's own non-empty `_id`, else the fresh id; an id the transaction already sees fails with `INVALID_ENTITY_STATE`; otherwise logs one create and stores one copy tagged with the transaction |
| Mongostate.Transaction.Activate | index.js:273-312 | requires `committed` or `activated`, and does nothing without a record or once `activated`; otherwise the real collections become the replay's result and the state `activated` |
| Mongostate.Transaction.ClearSubStateData | index.js:359-369 | a persisted model name not registered fails with `INVALID_OPERATION`; otherwise exactly the copies tagged with the transaction in a registered model are deleted |
| Mongostate.Transaction.Unlock | index.js:392-394 | deletes this transaction's locks and no other |
| Mongostate.Transaction.Commit | index.js:314-327 | requires `pending` or `committed`; persists `committed`, replays the log, then clears the copies; each failure point and the state it leaves are stated |
| Mongostate.Transaction.Finish | index.js:329-343 | requires `committed` or `pending` and does nothing without a record; on success the state is `finished` and the transaction owns no lock and no copy in a registered model; a failure leaves everything unchanged or the record committed or activated; the new store and result are `FinishOutcome`'s |
| Mongostate.Transaction.Rollback | index.js:345-357 | requires `pending` or `rollback`; persists `rollback` and clears the copies |
| Mongostate.Transaction.Cancel | index.js:371-390 | requires `pending` or `rollback`; ends `cancelled` with the error's message, only this transaction's locks released and its copies deleted; the real collections are never written; the new store and result are `CancelOutcome`'s |
| Mongostate.Transaction.RunOp | index.js:241-249 | each proxy call leaves the store and returns what `Step` gives, that is its touch followed by `RemoveStep`, `UpdateStep` or `CreateStep`; a thrown error changes nothing |
| Mongostate.Transaction.RunNext | index.js:258-262 | running the next call of a block that has not failed yet gives the state `Block` gives for one call more |
| Mongostate.Transaction.RunBlock | index.js:258-262 | running the block leaves the state, results and error that `Block` gives |
| Mongostate.Transaction.Settle | index.js:263-268 | `finish` after a block without error, `cancel` with the first error otherwise, rethrown unless cancelling fails: the new store and result are `Settled`'s |
| Mongostate.Transaction.Attempt | index.js:258-269 | the block and then `Settle`: the new store and result are `Settled` of `Block`, and the transaction counts as tried exactly when it succeeded; a failure leaves it trying and not tried, so proxy calls still pass the `_trying` gate and another `try` is accepted |
| Mongostate.Transaction.Try | index.js:252-271 | a second `try` after a success is refused and changes nothing; otherwise the new store and result are `Settled` of `Block`, so a block error on a pending record with every model registered is rethrown, the record cancelled with its message, its locks released and copies cleared, with the real collections unchanged, and a block without error leaves the real collections as the replay writes them (`TryPromise`); a success gives one result per call, the record finished and no lock owned; an empty block never creates a record; a newly cancelled transaction left the real collections unchanged and carries the rethrown message; a failure leaves the transaction trying and not tried |
| MongostateBak.TouchBak | index_bak.js:162-186 | as `Touch`, except that the lock is taken before the model is registered, so a refused lock leaves the model unregistered, and staging follows `StageBak` |
| MongostateBak.StepBak | index_bak.js:270-292 | one call of the block: a proxy call is `TouchBak` followed by the same steps as index.js; no call moves its record's state except by creating it pending, unregisters a model or changes another transaction's record |
| MongostateBak.BlockExtendBak | index_bak.js:300-303 | one more call of a block that has not failed extends it by that call's state and result |
| MongostateBak.BlockKeepsRecordsBak | index_bak.js:162-246 | the whole block leaves its record's state as it was or a fresh pending record, registers models only, and changes no other transaction's record |
| MongostateBak.CommitOutcomeBak | index_bak.js:313-349 | `commit` as a function of the store: on success the record is `committed`, owns no lock and no copy in a registered model; from `pending` the real collections are the replay's result, a key without a copy deleted; a failure keeps the record, locks and copies |
| MongostateBak.SettledBak | index_bak.js:300-308 | how `try` ends after its block: an error cancels and the real collections are untouched; on a pending record with every model registered that error is rethrown with the record cancelled, locks released and copies cleared; a block without error commits, writing the replay into the real collections, and on a full commit returns the block's results with the record `committed` |
| MongostateBak.PartialCommitLeftInRollback | index_bak.js:313-393 | when `commit`'s replay stops part way and every logged model is saved in the record, the partial writes stay, the record is left `rollback` with its locks and copies, and the clearing error is what `try` throws |
| MongostateBak.TryEndsBak | index_bak.js:295-311 | for every state and block, `try`'s outcome keeps `TryPromiseBak`: success gives one result per call with the record committed and no lock owned; an empty block without a record changes nothing; a newly cancelled record carries the rethrown message |
| MongostateBak.Transaction.constructor | index_bak.js:31-37 | the id is the `id` option unless that is missing or empty, and a fresh id otherwise |
| MongostateBak.Transaction.InitTransaction | index_bak.js:146-160 | a missing record is created as `NewRecord`: pending, with no model names, actions or error, and carrying the `biz` context; a cancelled or committed one is refused with `INVALID_TRANSACTION_STATE` |
| MongostateBak.Transaction.AddUsedModel | index_bak.js:127-137 | registers the model, and persists its name only when the instance had not registered it yet |
| MongostateBak.Transaction.ForceUseModel | index_bak.js:139-144 | registers the model without persisting anything |
| MongostateBak.Transaction.PushAction | index_bak.js:112-116 | appends the action to the record's log |
| MongostateBak.Transaction.Lock | index_bak.js:72-91 | a lock of this transaction is kept as it is; a key held by another transaction is refused by the unique index with `ENTITY_LOCKED` |
| MongostateBak.Transaction.LockAndStage | index_bak.js:171-185 | locks, then registers the model, then stages as `StageBak` gives; a refused lock changes nothing |
| MongostateBak.Transaction.FindOneAndLock | index_bak.js:162-186 | the new state and result are the ones `TouchBak` gives |
| MongostateBak.Transaction.FindOneAndRemove | index_bak.js:192-202 | logs one remove, deletes the shadow copy and returns the entity as seen before the removal; the new state and result are `RemoveStep` after `TouchBak` |
| MongostateBak.Transaction.FindOneAndUpdate | index_bak.js:208-225 | logs one update and applies the rewritten patch to the shadow copy; returns its old or new value; the new state and result are `UpdateStep` after `TouchBak` |
| MongostateBak.Transaction.Create | index_bak.js:231-246 | the key is `CreateId`'s: the document's own non-empty `_id`, else the fresh id; an id the transaction already sees fails with `INVALID_ENTITY_STATE`; otherwise logs one create and stores one tagged copy; the new state and result are `CreateStep` after `TouchBak` |
| MongostateBak.Transaction.ClearSubStateData | index_bak.js:385-395 | a persisted model name not registered fails with `INVALID_OPERATION`; otherwise exactly the copies tagged with the transaction in a registered model are deleted |
| MongostateBak.Transaction.Unlock | index_bak.js:397-399 | deletes this transaction's locks and no other |
| MongostateBak.Transaction.ReplayLog | index_bak.js:317-340 | the real collections become the result of the replay in which a logged key without a shadow copy is deleted whatever was logged |
| MongostateBak.Transaction.Commit | index_bak.js:313-349 | does nothing without a record and requires `pending`; on success the copies are gone, the locks released and the state `committed`; a failure changes no record and no lock; the new store and result are `CommitOutcomeBak`'s |
| MongostateBak.Transaction.CommitThenReopen | index_bak.js:155-157 | after a successful `commit` of an existing record, `_initTransaction` is refused with `INVALID_TRANSACTION_STATE` |
| MongostateBak.Transaction.Rollback | index_bak.js:371-383 | requires `pending` or `rollback`; persists `rollback` and clears the copies |
| MongostateBak.Transaction.Cancel | index_bak.js:351-369 | requires `pending` or `rollback`; ends `cancelled` with the message, this transaction's locks released and its copies deleted; the real collections are not written; the new store and result are `CancelOutcome`'s |
| MongostateBak.Transaction.RunOp | index_bak.js:270-292 | each proxy call leaves the store and returns what `StepBak` gives; a thrown error changes nothing |
| MongostateBak.Transaction.RunNext | index_bak.js:300-303 | running the next call of a block that has not failed yet gives the state `Block` gives for one call more |
| MongostateBak.Transaction.RunBlock | index_bak.js:300-303 | running the block leaves the state, results and error that `Block` gives |
| MongostateBak.Transaction.Settle | index_bak.js:303-308 | `commit` after a block without error, `cancel` with the first error otherwise, rethrown unless cancelling fails: the new store and result are `SettledBak`'s |
| MongostateBak.Transaction.Attempt | index_bak.js:300-309 | the block and then `Settle`: the new store and result are `SettledBak` of `Block`; the transaction counts as tried exactly when it succeeded, and a failure leaves it trying |
| MongostateBak.Transaction.Try | index_bak.js:295-311 | a second `try` after a success is refused and changes nothing; otherwise the new store and result are `SettledBak` of `Block`, so a block error on a pending record with every model registered is rethrown, the record cancelled with its message, its locks released and copies cleared, with the real collections unchanged, and a block without error leaves the real collections as `commit`'s replay writes them (`TryPromiseBak`); a success gives one result per call, the record committed and no lock owned; an empty block never creates a record; a newly cancelled transaction carries the rethrown message |

## Left out

- The Mongoose, Joi and plugin plumbing, all calls into foreign libraries:
  - option validation (index.js:18-30);
  - the `connection.model` lookups;
  - the sub-state schema registration in `use` and its `INTERNAL_ERROR`;
  - timestamps and `debug` logging;
  - `toJSON`.
- The `co`/generator wrapping and the wrapper type check in `try`
  (index.js:254-262). These are run-time reflection.
- MongostateBak.Transaction.Try: runs the block. index_bak.js:298 requires a
  generator function, and :302 calls it as `await wrapper.bind(this)()`
  without `co`, which only creates the generator object: the block never
  runs, and `try` commits and returns that object. The model runs the block
  as index.js does.
- Replay.RunAt: keeps keys apart as (model, entity) pairs. The replay skips a
  repeated entity by the string `${model}:${entity}` (index.js:284-285,
  index_bak.js:319-320), so model `a:b` with entity `c` and model `a` with
  entity `b:c` count as one entity there and as two in the model.
- The proxy object `use` returns is the `Op` datatype, run by `RunOp`. The
  block's result is the list of its calls' results.
- Query criteria are id lookups only; general Mongo query matching belongs to
  the store.
  - So the `…ById…` proxy forms coincide with the `findOne…` forms.
  - The fresh-ObjectId branch of index.js:143, which needs criteria without a
    plain `_id`, does not arise.
  - `SSModel.remove(query)` is removal by key.
- Update operators are not interpreted. The store's update is the parameter
  `Db.applyPatch`. Only the `$unset` rewrite is modelled.
- `new ObjectId` becomes a `generated` parameter of the constructor and of
  `create`.
- Returned documents omit the `__v` and `__t` fields that the store adds.
  Field values are flat scalars.
- An error's `stack` and `MError`'s `wrongdoer` field are not modelled.
- Mongostate.Transaction.Lock: does not model the duplicate-key branch at
  index.js:82-86. With no other transaction's lock on the key, the unique
  index refuses the insert only under a concurrent insert, which a sequential
  model cannot produce.
- `_lock`'s null-entity guard (index.js:61, index_bak.js:73) cannot fire,
  because the lock query is never null.
- Concurrency between transactions: calls are sequential, over one shared
  store.
- The Example scripts, which are live-database demos.
- Mongostate.Transaction.FindOneAndRemove: follows the corrected staging of
  the Findings row. In index.js a second remove of the same entity in one
  transaction copies the real entity back (index.js:152-156), logs a second
  REMOVE and succeeds (index.js:165-172); in the model it fails reading `_id`
  of null, and `try` cancels.
- Mongostate.Transaction.FindOneAndUpdate: follows the corrected staging. In
  index.js an update after a remove copies the entity back, updates that copy,
  and the replay writes it back; in the model the update returns null and
  logs nothing.
- Mongostate.Transaction.Create: follows the corrected staging. In index.js a
  create with the id of an entity removed earlier in the transaction is
  refused with `INVALID_ENTITY_STATE` (index.js:204-205), because its read
  copies the entity back; the model accepts it.
- MongostateBak models index_bak.js as written, including its copy of the
  entity on every read without a shadow copy. That variant is superseded, so
  the finding below is corrected only in the index.js model.

## Findings

| source | as written | input that shows it | evidently intended | confidence | as-written member | corrected member |
|---|---|---|---|---|---|---|
| index.js:151-156 | a read of a key the transaction already holds, with no shadow copy, copies the real entity into the shadow store again | in one transaction: `findById('p1')` of an existing person, `findByIdAndRemove('p1')`, `findById('p1')`; the third call returns the person, and `finish` keeps it | the copy is made on the first touch only, when the lock is new, so a removed entity stays invisible and the replay deletes it | not executed | Shadows.RemovedEntityReappears | Shadows.Stage |
