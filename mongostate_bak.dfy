/**
 * The earlier `Transaction` coordinator of index_bak.js: locking relies on the
 * lock collection's unique index alone, and a single `commit` replays the log
 * (deleting every logged entity without a shadow copy), clears the shadow
 * copies, releases the locks and ends in `committed`.
 */
module MongostateBak {
  import opened Wrappers
  import opened Constants
  import opened Errors
  import opened Store
  import opened Replay
  import opened Shadows
  import opened Mongostate

  /** The states `_initTransaction` refuses in this variant. */
  predicate ClosedBak(s: State) {
    s == Cancelled || s == Committed
  }

  /**
   * `_findOneAndLock` on key `k`: refused outside `try` and unless the record
   * is missing or pending; the record is created when missing; the lock is
   * taken before the model is registered, so a refused lock leaves the model
   * unregistered; then `StageBak` decides the shadow copy and the result.
   */
  function TouchBak(entities: map<Key, Doc>, shadow: map<Key, Shadow>, locks: map<Key, TxId>,
                    txns: map<TxId, TxRecord>, usedModels: set<ModelName>, trying: bool,
                    t: TxId, biz: map<string, Value>, k: Key): (r: Touched)
    ensures !trying ==> r == Touched(txns, usedModels, locks, shadow, Failure(OutsideTry()))
    ensures trying && !CanTouch(txns, t) ==> r == Touched(txns, usedModels, locks, shadow, Failure(NotPending()))
    ensures trying && CanTouch(txns, t) && LockedByOther(locks, k, t) ==>
      r == Touched(Opened(txns, t, biz), usedModels, locks, shadow, Failure(Locked(k.model, Shown(entities, k))))
    ensures r.result.Success? <==> trying && CanTouch(txns, t) && !LockedByOther(locks, k, t)
    ensures r.result.Success? ==>
      && r.txns == Admit(txns, t, biz, k.model, usedModels)
      && r.usedModels == usedModels + {k.model}
      && r.locks == locks[k := t]
      && Staged(r.shadow, r.result.value) == StageBak(shadow, entities, k, t)
    ensures StateKept(txns, r.txns, t)
    ensures forall t' :: t' != t ==> Get(r.txns, t') == Get(txns, t')
    ensures usedModels <= r.usedModels
    ensures r.result.Success? && r.result.value.Some? ==> k in r.shadow
  {
    if !trying then Touched(txns, usedModels, locks, shadow, Failure(OutsideTry()))
    else if !CanTouch(txns, t) then Touched(txns, usedModels, locks, shadow, Failure(NotPending()))
    else if LockedByOther(locks, k, t) then
      Touched(Opened(txns, t, biz), usedModels, locks, shadow, Failure(Locked(k.model, Shown(entities, k))))
    else
      var staged := StageBak(shadow, entities, k, t);
      Touched(Admit(txns, t, biz, k.model, usedModels), usedModels + {k.model}, locks[k := t], staged.shadow, Success(staged.view))
  }

  /** One call of the block in this variant: as in index.js, with `TouchBak` for the touch. */
  function StepBak(entities: map<Key, Doc>, applyPatch: (Doc, Patch) -> Doc, trying: bool, t: TxId, biz: map<string, Value>,
                   txns: map<TxId, TxRecord>, usedModels: set<ModelName>, locks: map<Key, TxId>, shadow: map<Key, Shadow>,
                   op: Op): (r: Touched)
    ensures usedModels <= r.usedModels
    ensures StateKept(txns, r.txns, t) && forall t' :: t' != t ==> Get(r.txns, t') == Get(txns, t')
  {
    if op.Throw? then Touched(txns, usedModels, locks, shadow, Failure(BizError(op.message)))
    else AfterTouch(applyPatch, t, op, TouchBak(entities, shadow, locks, txns, usedModels, trying, t, biz, KeyOf(op)))
  }

  /** One call of the block inside `try`, as a function of the state before it. */
  function StepOfBak(entities: map<Key, Doc>, applyPatch: (Doc, Patch) -> Doc, t: TxId, biz: map<string, Value>): (step: (Touched, Op) -> Touched)
  {
    (s: Touched, op: Op) => StepBak(entities, applyPatch, true, t, biz, s.txns, s.usedModels, s.locks, s.shadow, op)
  }

  /** One more call of a block inside `try` that has not failed yet: the block's state is that call's. */
  lemma BlockExtendBak(entities: map<Key, Doc>, applyPatch: (Doc, Patch) -> Doc, t: TxId, biz: map<string, Value>,
                       s: Touched, body: seq<Op>, i: nat, cur: Touched, results: seq<Option<Doc>>, n: Touched)
    requires i < |body|
    requires Block(StepOfBak(entities, applyPatch, t, biz), s, body[..i]) == Ran(cur, results, None)
    requires StepBak(entities, applyPatch, true, t, biz, cur.txns, cur.usedModels, cur.locks, cur.shadow, body[i]) == n
    ensures Block(StepOfBak(entities, applyPatch, t, biz), s, body[..i + 1])
         == (if n.result.Failure? then Ran(n, results, Some(n.result.error)) else Ran(n, results + [n.result.value], None))
  {
    assert body[..i + 1][..i] == body[..i];
  }

  /**
   * The block of `try` leaves the lifecycle state of its record as it was (or
   * creates the record pending), registers models only, and changes no other
   * transaction's record.
   */
  lemma BlockKeepsRecordsBak(entities: map<Key, Doc>, applyPatch: (Doc, Patch) -> Doc, t: TxId,
                             biz: map<string, Value>, s: Touched, body: seq<Op>)
    ensures var r := Block(StepOfBak(entities, applyPatch, t, biz), s, body);
            && StateKept(s.txns, r.last.txns, t)
            && (forall t' :: t' != t ==> Get(r.last.txns, t') == Get(s.txns, t'))
            && s.usedModels <= r.last.usedModels
  {
    var step := StepOfBak(entities, applyPatch, t, biz);
    forall p: Touched, op: Op
      ensures KeepsRecords(p, step(p, op), t)
    {
      assert step(p, op) == StepBak(entities, applyPatch, true, t, biz, p.txns, p.usedModels, p.locks, p.shadow, op);
    }
    BlockKeepsRecordsOf(step, t, s, body);
  }

  /**
   * `commit`: a no-op without a record; refused unless the record is
   * pending; otherwise the log is replayed into the real collections (a key
   * without a shadow copy deleted) and, when the replay completes and clearing
   * is allowed, the copies are cleared, the locks released and the record
   * ends `committed`. A failure leaves the record, locks and copies as they were.
   */
  function CommitOutcomeBak(entities: map<Key, Doc>, txns: map<TxId, TxRecord>, locks: map<Key, TxId>,
                            shadow: map<Key, Shadow>, usedModels: set<ModelName>, t: TxId): (r: Ended)
    ensures r.result.Success? && t in txns ==>
      && t in r.txns && r.txns[t].state == Committed && OwnsNoLock(r.locks, t)
      && forall k :: k in r.shadow && k.model in usedModels ==> r.shadow[k].tag != t
    ensures t in txns && txns[t].state == Pending ==>
      r.entities == Replayed(entities, shadow, usedModels, txns[t].actions, DeleteAlways).entities
    ensures r.result.Failure? ==> r.txns == txns && r.locks == locks && r.shadow == shadow
    ensures forall t' :: t' != t ==> Get(r.txns, t') == Get(txns, t')
  {
    if t !in txns then Ended(entities, txns, locks, shadow, Success(()))
    else if txns[t].state != Pending then
      Ended(entities, txns, locks, shadow, Failure(UnexpectedState(t, "pending", txns[t].state)))
    else
      var record := txns[t];
      var o := Replayed(entities, shadow, usedModels, record.actions, DeleteAlways);
      if o.Stopped? then Ended(o.entities, txns, locks, shadow, Failure(ModelNotUsed(o.model)))
      else if !Covered(record.usedModelNames, usedModels) then
        Ended(o.entities, txns, locks, shadow, Failure(UseFirst(record.usedModelNames)))
      else
        Ended(o.entities, WithState(txns, t, Committed), ReleaseLocks(locks, t), ClearShadows(shadow, t, usedModels), Success(()))
  }

  /**
   * How `try` ends once its block ran as `b`: `commit` when the block
   * succeeded, then `cancel` with the first error of the block or of `commit`;
   * that error is rethrown unless cancelling fails, whose error is thrown instead.
   */
  function SettledBak(entities: map<Key, Doc>, t: TxId, b: Ran): (r: (Ended, Result<seq<Option<Doc>>, Error>))
    ensures b.error.Some? ==> r.0.entities == entities
    ensures b.error.Some? && r.0.result.Success? ==> r.1 == Failure(b.error.value)
    ensures b.error.Some? && t in b.last.txns && b.last.txns[t].state == Pending
            && Covered(b.last.txns[t].usedModelNames, b.last.usedModels) ==>
      && r.1 == Failure(b.error.value)
      && r.0.txns == WithCancelled(b.last.txns, t, b.error.value.message)
      && r.0.locks == ReleaseLocks(b.last.locks, t)
      && r.0.shadow == ClearShadows(b.last.shadow, t, b.last.usedModels)
    ensures r.1.Success? ==> b.error.None? && r.0.result.Success? && r.1.value == b.results
    ensures b.error.None? && t in b.last.txns && b.last.txns[t].state == Pending
            && Replayed(entities, b.last.shadow, b.last.usedModels, b.last.txns[t].actions, DeleteAlways).Done?
            && Covered(b.last.txns[t].usedModelNames, b.last.usedModels) ==>
      && r.1 == Success(b.results)
      && r.0.txns == WithState(b.last.txns, t, Committed)
      && r.0.locks == ReleaseLocks(b.last.locks, t)
      && r.0.shadow == ClearShadows(b.last.shadow, t, b.last.usedModels)
    ensures b.error.None? && t in b.last.txns && b.last.txns[t].state == Pending ==>
      r.0.entities == Replayed(entities, b.last.shadow, b.last.usedModels, b.last.txns[t].actions, DeleteAlways).entities
    ensures StateOf(r.0.txns, t) == Some(Cancelled) && StateOf(b.last.txns, t) != Some(Cancelled) ==>
      && r.1.Failure? && OwnsNoLock(r.0.locks, t)
      && t in r.0.txns && r.0.txns[t].errorMessage == Some(r.1.error.message)
  {
    var s := b.last;
    match b.error
    case Some(e) =>
      var c := CancelOutcome(entities, s.txns, s.locks, s.shadow, s.usedModels, t, e);
      (c, Failure(if c.result.Failure? then c.result.error else e))
    case None =>
      var f := CommitOutcomeBak(entities, s.txns, s.locks, s.shadow, s.usedModels, t);
      if f.result.Success? then (f, Success(b.results))
      else
        var c := CancelOutcome(f.entities, f.txns, f.locks, f.shadow, s.usedModels, t, f.result.error);
        (c, Failure(if c.result.Failure? then c.result.error else f.result.error))
  }

  /**
   * A `commit` whose replay stops part way, when every logged model is also
   * saved in the record (as a touch that is not forced saves it): the replay's
   * writes to the real collections stay, and the `cancel` that follows refuses
   * to clear the copies, so the record is left `rollback` with its locks and
   * copies, and the clearing error is thrown.
   */
  lemma PartialCommitLeftInRollback(entities: map<Key, Doc>, t: TxId, b: Ran)
    requires b.error.None? && t in b.last.txns && b.last.txns[t].state == Pending
    requires forall i :: 0 <= i < |b.last.txns[t].actions| ==>
      b.last.txns[t].actions[i].key.model in b.last.txns[t].usedModelNames
    requires Replayed(entities, b.last.shadow, b.last.usedModels, b.last.txns[t].actions, DeleteAlways).Stopped?
    ensures var r := SettledBak(entities, t, b);
            && r.1 == Failure(UseFirst(b.last.txns[t].usedModelNames))
            && r.0.txns == WithState(b.last.txns, t, State.Rollback)
            && r.0.locks == b.last.locks && r.0.shadow == b.last.shadow
            && r.0.entities == Replayed(entities, b.last.shadow, b.last.usedModels, b.last.txns[t].actions, DeleteAlways).entities
  {
    var s := b.last;
    var actions := s.txns[t].actions;
    ReplayDoneIff(entities, s.shadow, s.usedModels, actions, DeleteAlways);
    var i :| 0 <= i < |actions| && actions[i].key.model !in s.usedModels;
    assert !Covered(s.txns[t].usedModelNames, s.usedModels);
  }

  /**
   * What `try` promises once its block ran as `b` over the real collections
   * `entities`, given the collections after it and its result `r`: a block that
   * failed leaves the real collections untouched, and when its record is pending
   * with every model registered the error is rethrown, the record cancelled with
   * its message, its locks released and its shadows cleared; a block that
   * succeeded leaves the real collections as `commit`'s replay of the record's
   * actions leaves them.
   */
  ghost predicate TryPromiseBak(entities: map<Key, Doc>, t: TxId, b: Ran, r: Result<seq<Option<Doc>>, Error>,
                                entities': map<Key, Doc>, txns': map<TxId, TxRecord>,
                                locks': map<Key, TxId>, shadow': map<Key, Shadow>)
  {
    var s := b.last;
    && (b.error.Some? ==> entities' == entities)
    && (b.error.Some? && t in s.txns && s.txns[t].state == Pending && Covered(s.txns[t].usedModelNames, s.usedModels) ==>
          && r == Failure(b.error.value)
          && txns' == WithCancelled(s.txns, t, b.error.value.message)
          && locks' == ReleaseLocks(s.locks, t)
          && shadow' == ClearShadows(s.shadow, t, s.usedModels))
    && (b.error.None? && t in s.txns && s.txns[t].state == Pending ==>
          entities' == Replayed(entities, s.shadow, s.usedModels, s.txns[t].actions, DeleteAlways).entities)
  }

  /**
   * How `try` ends, as a function of the state `s` before it: on success one
   * result per call and the record, if any, committed and holding no lock; an
   * empty block without a record changes nothing; a record `try` cancels
   * carries the error rethrown and holds no lock.
   */
  lemma {:induction false} TryEndsBak(entities: map<Key, Doc>, applyPatch: (Doc, Patch) -> Doc, t: TxId,
                                     biz: map<string, Value>, s: Touched, body: seq<Op>)
    ensures var b := Block(StepOfBak(entities, applyPatch, t, biz), s, body);
            var settled := SettledBak(entities, t, b);
            && (settled.1.Success? ==>
                  && |settled.1.value| == |body|
                  && (t in settled.0.txns ==> settled.0.txns[t].state == Committed && OwnsNoLock(settled.0.locks, t)))
            && (body == [] && t !in s.txns ==>
                  settled == (Ended(entities, s.txns, s.locks, s.shadow, Success(())), Success([])))
            && (StateOf(settled.0.txns, t) == Some(Cancelled) && StateOf(s.txns, t) != Some(Cancelled) ==>
                  && settled.1.Failure? && OwnsNoLock(settled.0.locks, t)
                  && t in settled.0.txns && settled.0.txns[t].errorMessage == Some(settled.1.error.message))
            && TryPromiseBak(entities, t, b, settled.1, settled.0.entities, settled.0.txns, settled.0.locks, settled.0.shadow)
  {
    BlockKeepsRecordsBak(entities, applyPatch, t, biz, s, body);
  }

  class Transaction {
    const id: TxId
    const db: Db
    const biz: map<string, Value>
    var usedModels: set<ModelName>
    var trying: bool
    var tried: bool

    /** `requested` is the `id` option (an empty string counts as absent); `generated` the fresh ObjectId. */
    constructor (db: Db, requested: Option<TxId>, generated: TxId, biz: Option<map<string, Value>>)
      ensures this.db == db
      ensures id == (if requested.Some? && requested.value != "" then requested.value else generated)
      ensures this.biz == (if biz.Some? then biz.value else map[])
      ensures usedModels == {} && !trying && !tried
    {
      this.db := db;
      id := if requested.Some? && requested.value != "" then requested.value else generated;
      this.biz := if biz.Some? then biz.value else map[];
      usedModels := {};
      trying := false;
      tried := false;
    }

    /** `_initTransaction`: creates the record when missing; refuses a cancelled or committed one. */
    method InitTransaction() returns (r: Result<TxRecord, Error>)
      requires db.Valid()
      modifies db`txns
      ensures db.Valid()
      ensures id !in old(db.txns) ==> r == Success(NewRecord(biz)) && db.txns == old(db.txns)[id := NewRecord(biz)]
      ensures id in old(db.txns) && ClosedBak(old(db.txns)[id].state) ==>
        r == Failure(ClosedState(id, old(db.txns)[id].state)) && db.txns == old(db.txns)
      ensures id in old(db.txns) && !ClosedBak(old(db.txns)[id].state) ==>
        r == Success(old(db.txns)[id]) && db.txns == old(db.txns)
    {
      if id !in db.txns {
        var created := NewRecord(biz);
        db.txns := db.txns[id := created];
        return Success(created);
      }
      var record := db.txns[id];
      if ClosedBak(record.state) {
        return Failure(ClosedState(id, record.state));
      }
      return Success(record);
    }

    /** `_addUsedModel`. */
    method AddUsedModel(m: ModelName)
      requires db.Valid()
      modifies this`usedModels, db`txns
      ensures db.Valid()
      ensures usedModels == old(usedModels) + {m}
      ensures db.txns == Registered(old(db.txns), id, m, old(usedModels))
    {
      if m !in usedModels {
        usedModels := usedModels + {m};
        db.txns := WithUsedModel(db.txns, id, m);
      }
    }

    /** `forceUseModel`. */
    method ForceUseModel(m: ModelName)
      modifies this`usedModels
      ensures usedModels == old(usedModels) + {m}
    {
      if m !in usedModels {
        usedModels := usedModels + {m};
      }
    }

    /** `_pushAction`. */
    method PushAction(a: Action)
      requires db.Valid()
      modifies db`txns
      ensures db.Valid()
      ensures db.txns == WithAction(old(db.txns), id, a)
    {
      db.txns := WithAction(db.txns, id, a);
    }

    /**
     * `_lock`: a lock this transaction holds already is kept; otherwise the
     * insert either succeeds or is refused by the unique index because
     * another transaction holds the key.
     */
    method Lock(k: Key, found: bool) returns (r: Result<(), Error>)
      requires db.Valid() && StateOf(db.txns, id) == Some(Pending)
      modifies db`locks
      ensures db.Valid()
      ensures LockedByOther(old(db.locks), k, id) ==>
        r == Failure(Locked(k.model, if found then k.entity else "undefined")) && db.locks == old(db.locks)
      ensures !LockedByOther(old(db.locks), k, id) ==> r == Success(()) && db.locks == old(db.locks)[k := id]
    {
      if k in db.locks && db.locks[k] == id {
        assert db.locks == old(db.locks)[k := id];
        return Success(());
      }
      var duplicate := db.InsertLock(k, id);
      if duplicate {
        return Failure(Locked(k.model, if found then k.entity else "undefined"));
      }
      return Success(());
    }

    /** The part of `_findOneAndLock` from `_lock` on. */
    method LockAndStage(k: Key) returns (r: Result<Option<Doc>, Error>)
      requires db.Valid() && StateOf(db.txns, id) == Some(Pending)
      modifies this`usedModels, db`txns, db`locks, db`shadow
      ensures db.Valid()
      ensures LockedByOther(old(db.locks), k, id) ==>
        && r == Failure(Locked(k.model, Shown(db.entities, k)))
        && db.txns == old(db.txns) && usedModels == old(usedModels) && db.locks == old(db.locks) && db.shadow == old(db.shadow)
      ensures !LockedByOther(old(db.locks), k, id) ==>
        && r.Success?
        && db.txns == Registered(old(db.txns), id, k.model, old(usedModels))
        && usedModels == old(usedModels) + {k.model}
        && db.locks == old(db.locks)[k := id]
        && Staged(db.shadow, r.value) == StageBak(old(db.shadow), db.entities, k, id)
    {
      var src := Get(db.entities, k);
      var locked := Lock(k, src.Some?);
      if locked.Failure? {
        return Failure(locked.error);
      }
      AddUsedModel(k.model);
      var sub := Get(db.shadow, k);
      if sub.Some? {
        return Success(Some(sub.value.doc));
      }
      if src.Some? {
        db.shadow := db.shadow[k := Shadow(Bare(src.value), id)];
      }
      return Success(src);
    }

    /** `_findOneAndLock` with criteria `{_id: entity}` (also `findOne` and `findById`). */
    method FindOneAndLock(model: ModelName, entity: EntityId) returns (r: Result<Option<Doc>, Error>)
      requires db.Valid()
      modifies this`usedModels, db`txns, db`locks, db`shadow
      ensures db.Valid()
      ensures TouchBak(old(db.entities), old(db.shadow), old(db.locks), old(db.txns), old(usedModels), trying, id, biz, Key(model, entity))
           == Touched(db.txns, usedModels, db.locks, db.shadow, r)
    {
      var k := Key(model, entity);
      if !trying {
        return Failure(OutsideTry());
      }
      if id !in db.txns {
        var created := InitTransaction();
      }
      assert db.txns == Opened(old(db.txns), id, biz);
      assert CanTouch(old(db.txns), id) <==> db.txns[id].state == Pending;
      if db.txns[id].state != Pending {
        return Failure(NotPending());
      }
      r := LockAndStage(k);
    }

    /** `_findOneAndRemove` with query `{_id: entity}`: returns the entity as the transaction saw it. */
    method FindOneAndRemove(model: ModelName, entity: EntityId) returns (r: Result<Option<Doc>, Error>)
      requires db.Valid()
      modifies this`usedModels, db`txns, db`locks, db`shadow
      ensures db.Valid()
      ensures RemoveStep(TouchBak(old(db.entities), old(db.shadow), old(db.locks), old(db.txns), old(usedModels),
                                  trying, id, biz, Key(model, entity)), id, Key(model, entity))
           == Touched(db.txns, usedModels, db.locks, db.shadow, r)
    {
      var k := Key(model, entity);
      var found := FindOneAndLock(model, entity);
      if found.Failure? {
        return Failure(found.error);
      }
      if found.value.None? {
        return Failure(NullRead("_id"));
      }
      PushAction(Action(Remove, k));
      db.shadow := db.shadow - {k};
      return Success(found.value);
    }

    /**
     * `_findOneAndUpdate` with query `{_id: entity}`: the update goes to the
     * shadow copy, with `$unset` rewritten; the result is the shadow copy
     * before the update, or after it when `returnNew`.
     */
    method FindOneAndUpdate(model: ModelName, entity: EntityId, patch: Patch, returnNew: bool)
      returns (r: Result<Option<Doc>, Error>)
      requires db.Valid()
      modifies this`usedModels, db`txns, db`locks, db`shadow
      ensures db.Valid()
      ensures UpdateStep(db.applyPatch, TouchBak(old(db.entities), old(db.shadow), old(db.locks), old(db.txns), old(usedModels),
                                                 trying, id, biz, Key(model, entity)), id, Key(model, entity), patch, returnNew)
           == Touched(db.txns, usedModels, db.locks, db.shadow, r)
    {
      var k := Key(model, entity);
      var found := FindOneAndLock(model, entity);
      if found.Failure? {
        return Failure(found.error);
      }
      if found.value.None? {
        return Success(None);
      }
      PushAction(Action(Update, k));
      var before := db.shadow[k];
      var updated := db.applyPatch(before.doc, RewriteUnset(patch));
      db.shadow := db.shadow[k := Shadow(updated, before.tag)];
      return Success(Some(if returnNew then updated else before.doc));
    }

    /** `_create`: refuses an id the transaction already sees; otherwise one create action and one tagged shadow copy. */
    method Create(model: ModelName, requested: Option<EntityId>, generated: EntityId, doc: Doc)
      returns (r: Result<Doc, Error>)
      requires db.Valid()
      modifies this`usedModels, db`txns, db`locks, db`shadow
      ensures db.Valid()
      ensures CreateStep(TouchBak(old(db.entities), old(db.shadow), old(db.locks), old(db.txns), old(usedModels),
                                  trying, id, biz, Key(model, CreateId(requested, generated))), id, Key(model, CreateId(requested, generated)), doc)
           == Touched(db.txns, usedModels, db.locks, db.shadow, if r.Success? then Success(Some(r.value)) else Failure(r.error))
    {
      var entity := CreateId(requested, generated);
      var k := Key(model, entity);
      var found := FindOneAndLock(model, entity);
      if found.Failure? {
        return Failure(found.error);
      }
      if found.value.Some? {
        return Failure(AlreadyExists(model, entity));
      }
      PushAction(Action(Operation.Create, k));
      var stored := Untagged(doc);
      db.shadow := db.shadow[k := Shadow(stored, id)];
      return Success(stored);
    }

    /** `_clearSubStateData`, as in index.js. */
    method ClearSubStateData() returns (r: Result<(), Error>)
      requires db.Valid()
      modifies db`shadow
      ensures db.Valid()
      ensures id !in db.txns ==> r == Failure(NullRead("usedModelNames")) && db.shadow == old(db.shadow)
      ensures id in db.txns && !Covered(db.txns[id].usedModelNames, usedModels) ==>
        r == Failure(UseFirst(db.txns[id].usedModelNames)) && db.shadow == old(db.shadow)
      ensures id in db.txns && Covered(db.txns[id].usedModelNames, usedModels) ==>
        r == Success(()) && db.shadow == ClearShadows(old(db.shadow), id, usedModels)
    {
      if id !in db.txns {
        return Failure(NullRead("usedModelNames"));
      }
      var names := db.txns[id].usedModelNames;
      if !Covered(names, usedModels) {
        return Failure(UseFirst(names));
      }
      var todo := usedModels;
      ClearShadowsStep(db.shadow, id, {}, "");
      while todo != {}
        invariant todo <= usedModels
        invariant db.shadow == ClearShadows(old(db.shadow), id, usedModels - todo)
        decreases todo
      {
        var m :| m in todo;
        ClearShadowsStep(old(db.shadow), id, usedModels - todo, m);
        db.shadow := ClearShadows(db.shadow, id, {m});
        assert usedModels - todo + {m} == usedModels - (todo - {m});
        todo := todo - {m};
      }
      return Success(());
    }

    /** `_unlock`. */
    method Unlock()
      requires db.Valid()
      modifies db`locks
      ensures db.Valid()
      ensures db.locks == ReleaseLocks(old(db.locks), id)
    {
      db.locks := ReleaseLocks(db.locks, id);
    }

    /**
     * The replay loop of `commit`: newest action first, each key once, a key
     * without a shadow copy deleted whatever was logged.
     */
    method ReplayLog(actions: seq<Action>) returns (r: Result<(), Error>)
      modifies db`entities
      ensures var o := Replayed(old(db.entities), db.shadow, usedModels, actions, DeleteAlways);
              && db.entities == o.entities
              && (o.Done? ==> r == Success(()))
              && (o.Stopped? ==> r == Failure(ModelNotUsed(o.model)))
    {
      var pending := Reverse(actions);
      var activated: set<Key> := {};
      var i := 0;
      assert pending[i..] == pending;
      while i < |pending|
        invariant 0 <= i <= |pending|
        invariant Run(db.entities, db.shadow, usedModels, pending[i..], activated, DeleteAlways)
               == Replayed(old(db.entities), db.shadow, usedModels, actions, DeleteAlways)
      {
        var a := pending[i];
        assert pending[i..][0] == a && pending[i..][1..] == pending[i + 1..];
        if a.key in activated {
          i := i + 1;
          continue;
        }
        activated := activated + {a.key};
        if a.key.model !in usedModels {
          return Failure(ModelNotUsed(a.key.model));
        }
        var before := db.entities;
        var sub := Get(db.shadow, a.key);
        if sub.Some? {
          var doc := Bare(sub.value.doc);
          if a.key in db.entities {
            db.entities := db.entities[a.key := Doc(db.entities[a.key].fields + doc.fields)];
          } else {
            db.entities := db.entities[a.key := doc];
          }
        } else {
          db.entities := db.entities - {a.key};
        }
        assert db.entities == SetAt(before, a.key, WriteAt(Get(before, a.key), sub, a.operation, DeleteAlways)) by {
          SameEverywhere(db.entities, SetAt(before, a.key, WriteAt(Get(before, a.key), sub, a.operation, DeleteAlways)));
        }
        i := i + 1;
      }
      return Success(());
    }

    /**
     * `commit`: replays the log, clears the shadow copies, releases the locks
     * and marks the record committed. Nothing is persisted before the
     * replay, so a replay that stops leaves the record pending.
     */
    method Commit() returns (r: Result<(), Error>)
      requires db.Valid()
      modifies db`entities, db`txns, db`locks, db`shadow
      ensures db.Valid()
      ensures id !in old(db.txns) ==> r == Success(()) && unchanged(db)
      ensures id in old(db.txns) && old(db.txns)[id].state != Pending ==>
        r == Failure(UnexpectedState(id, "pending", old(db.txns)[id].state)) && unchanged(db)
      ensures id in old(db.txns) && old(db.txns)[id].state == Pending ==>
        var record := old(db.txns)[id];
        var o := Replayed(old(db.entities), old(db.shadow), usedModels, record.actions, DeleteAlways);
        && db.entities == o.entities
        && (o.Done? && Covered(record.usedModelNames, usedModels) ==>
              && r == Success(())
              && db.txns == WithState(old(db.txns), id, Committed)
              && db.shadow == ClearShadows(old(db.shadow), id, usedModels)
              && db.locks == ReleaseLocks(old(db.locks), id))
        && (o.Stopped? ==>
              r == Failure(ModelNotUsed(o.model)) && db.txns == old(db.txns) && db.shadow == old(db.shadow) && db.locks == old(db.locks))
        && (o.Done? && !Covered(record.usedModelNames, usedModels) ==>
              && r == Failure(UseFirst(record.usedModelNames))
              && db.txns == old(db.txns) && db.shadow == old(db.shadow) && db.locks == old(db.locks))
      ensures r.Success? ==> OwnsNoLock(db.locks, id) && (id in db.txns ==> db.txns[id].state == Committed)
      ensures r.Failure? ==> db.txns == old(db.txns) && db.locks == old(db.locks)
      ensures var o := CommitOutcomeBak(old(db.entities), old(db.txns), old(db.locks), old(db.shadow), usedModels, id);
              (r, db.entities, db.txns, db.locks, db.shadow) == (o.result, o.entities, o.txns, o.locks, o.shadow)
    {
      if id !in db.txns {
        return Success(());
      }
      var record := db.txns[id];
      if record.state != Pending {
        return Failure(UnexpectedState(id, "pending", record.state));
      }
      var replayed := ReplayLog(record.actions);
      if replayed.Failure? {
        return replayed;
      }
      var cleared := ClearSubStateData();
      if cleared.Failure? {
        return cleared;
      }
      Unlock();
      db.txns := WithState(db.txns, id, Committed);
      return Success(());
    }

    /** `commit` followed by `_initTransaction`: a committed transaction cannot be reopened. */
    method CommitThenReopen() returns (committed: Result<(), Error>, reopened: Result<TxRecord, Error>)
      requires db.Valid()
      modifies db`entities, db`txns, db`locks, db`shadow
      ensures db.Valid()
      ensures id in old(db.txns) && committed.Success? ==>
        reopened == Failure(ClosedState(id, Committed)) && reopened.error.errorType == InvalidTransactionState
    {
      committed := Commit();
      reopened := InitTransaction();
    }

    /** `_rollback`, as in index.js. */
    method Rollback() returns (r: Result<(), Error>)
      requires db.Valid()
      modifies db`txns, db`shadow
      ensures db.Valid()
      ensures id !in old(db.txns) ==> r == Failure(NullRead("state")) && db.txns == old(db.txns) && db.shadow == old(db.shadow)
      ensures id in old(db.txns) && old(db.txns)[id].state !in {Pending, State.Rollback} ==>
        && r == Failure(UnexpectedState(id, "pending/rollback", old(db.txns)[id].state))
        && db.txns == old(db.txns) && db.shadow == old(db.shadow)
      ensures id in old(db.txns) && old(db.txns)[id].state in {Pending, State.Rollback} ==>
        var record := old(db.txns)[id];
        && db.txns == WithState(old(db.txns), id, State.Rollback)
        && (Covered(record.usedModelNames, usedModels) ==>
              r == Success(()) && db.shadow == ClearShadows(old(db.shadow), id, usedModels))
        && (!Covered(record.usedModelNames, usedModels) ==>
              r == Failure(UseFirst(record.usedModelNames)) && db.shadow == old(db.shadow))
    {
      if id !in db.txns {
        return Failure(NullRead("state"));
      }
      var record := db.txns[id];
      if record.state != Pending && record.state != State.Rollback {
        return Failure(UnexpectedState(id, "pending/rollback", record.state));
      }
      db.txns := WithState(db.txns, id, State.Rollback);
      r := ClearSubStateData();
    }

    /** `cancel`, as in index.js: the real collections are never written. */
    method Cancel(error: Error) returns (r: Result<(), Error>)
      requires db.Valid()
      modifies db`txns, db`shadow, db`locks
      ensures db.Valid()
      ensures db.entities == old(db.entities)
      ensures id !in old(db.txns) ==> r == Success(()) && unchanged(db)
      ensures id in old(db.txns) && old(db.txns)[id].state !in {Pending, State.Rollback} ==>
        r == Failure(UnexpectedState(id, "pending/rollback", old(db.txns)[id].state)) && unchanged(db)
      ensures id in old(db.txns) && old(db.txns)[id].state in {Pending, State.Rollback} ==>
        var record := old(db.txns)[id];
        && (Covered(record.usedModelNames, usedModels) ==>
              && r == Success(())
              && db.txns == WithCancelled(old(db.txns), id, error.message)
              && db.shadow == ClearShadows(old(db.shadow), id, usedModels)
              && db.locks == ReleaseLocks(old(db.locks), id))
        && (!Covered(record.usedModelNames, usedModels) ==>
              && r == Failure(UseFirst(record.usedModelNames))
              && db.txns == WithState(old(db.txns), id, State.Rollback)
              && db.shadow == old(db.shadow) && db.locks == old(db.locks))
      ensures var o := CancelOutcome(old(db.entities), old(db.txns), old(db.locks), old(db.shadow), usedModels, id, error);
              (r, db.entities, db.txns, db.locks, db.shadow) == (o.result, o.entities, o.txns, o.locks, o.shadow)
    {
      if id !in db.txns {
        return Success(());
      }
      var record := db.txns[id];
      if record.state != Pending && record.state != State.Rollback {
        return Failure(UnexpectedState(id, "pending/rollback", record.state));
      }
      var rolledBack := Rollback();
      if rolledBack.Failure? {
        return rolledBack;
      }
      Unlock();
      db.txns := WithCancelled(db.txns, id, error.message);
      return Success(());
    }

    /** One call of the block: a proxy operation, or the block's own error. */
    method RunOp(op: Op) returns (r: Result<Option<Doc>, Error>)
      requires db.Valid()
      modifies this`usedModels, db`txns, db`locks, db`shadow
      ensures db.Valid()
      ensures StepBak(db.entities, db.applyPatch, trying, id, biz, old(db.txns), old(usedModels), old(db.locks), old(db.shadow), op)
           == Touched(db.txns, usedModels, db.locks, db.shadow, r)
      ensures op.Throw? ==> r == Failure(BizError(op.message)) && unchanged(this) && unchanged(db)
    {
      match op
      case ProxyCreate(m, requested, generated, doc) =>
        var created := Create(m, requested, generated, doc);
        r := if created.Success? then Success(Some(created.value)) else Failure(created.error);
      case ProxyFindOne(m, e) =>
        r := FindOneAndLock(m, e);
      case ProxyUpdate(m, e, patch, returnNew) =>
        r := FindOneAndUpdate(m, e, patch, returnNew);
      case ProxyRemove(m, e) =>
        r := FindOneAndRemove(m, e);
      case Throw(message) =>
        r := Failure(BizError(message));
    }

    /** The next call of a block that has not failed yet, with the block's results and error after it. */
    method RunNext(ghost s0: Touched, body: seq<Op>, i: nat, results: seq<Option<Doc>>, ghost last: Result<Option<Doc>, Error>)
      returns (result: Result<Option<Doc>, Error>, results': seq<Option<Doc>>, failure: Option<Error>)
      requires db.Valid() && trying && i < |body|
      requires Block(StepOfBak(db.entities, db.applyPatch, id, biz), s0, body[..i])
            == Ran(Touched(db.txns, usedModels, db.locks, db.shadow, last), results, None)
      modifies this`usedModels, db`txns, db`locks, db`shadow
      ensures db.Valid()
      ensures Block(StepOfBak(db.entities, db.applyPatch, id, biz), s0, body[..i + 1])
           == Ran(Touched(db.txns, usedModels, db.locks, db.shadow, result), results', failure)
    {
      ghost var cur := Touched(db.txns, usedModels, db.locks, db.shadow, last);
      result := RunOp(body[i]);
      BlockExtendBak(db.entities, db.applyPatch, id, biz, s0, body, i, cur, results, Touched(db.txns, usedModels, db.locks, db.shadow, result));
      if result.Failure? {
        results', failure := results, Some(result.error);
      } else {
        results', failure := results + [result.value], None;
      }
    }

    /** The block of `try`: each call in turn, until the first error. */
    method RunBlock(body: seq<Op>) returns (results: seq<Option<Doc>>, failure: Option<Error>, ghost last: Result<Option<Doc>, Error>)
      requires db.Valid() && trying
      modifies this`usedModels, db`txns, db`locks, db`shadow
      ensures db.Valid()
      ensures Block(StepOfBak(db.entities, db.applyPatch, id, biz),
                    Touched(old(db.txns), old(usedModels), old(db.locks), old(db.shadow), Success(None)), body)
           == Ran(Touched(db.txns, usedModels, db.locks, db.shadow, last), results, failure)
      decreases |body|
    {
      if body == [] {
        return [], None, Success(None);
      }
      ghost var s0 := Touched(db.txns, usedModels, db.locks, db.shadow, Success(None));
      results, failure, last := RunBlock(body[..|body| - 1]);
      if failure.None? {
        last, results, failure := RunNext(s0, body, |body| - 1, results, last);
        assert body[..|body|] == body;
      }
    }

    /** The end of `try` once its block ran: `commit`, then `cancel` with the first error. */
    method Settle(results: seq<Option<Doc>>, failure: Option<Error>, ghost last: Result<Option<Doc>, Error>)
      returns (r: Result<seq<Option<Doc>>, Error>)
      requires db.Valid()
      modifies db`entities, db`txns, db`locks, db`shadow
      ensures db.Valid()
      ensures var settled := SettledBak(old(db.entities), id, Ran(Touched(old(db.txns), usedModels, old(db.locks), old(db.shadow), last), results, failure));
              (r, db.entities, db.txns, db.locks, db.shadow)
              == (settled.1, settled.0.entities, settled.0.txns, settled.0.locks, settled.0.shadow)
    {
      var error := failure;
      if error.None? {
        var committed := Commit();
        if committed.Failure? {
          error := Some(committed.error);
        }
      }
      if error.Some? {
        var cancelled := Cancel(error.value);
        if cancelled.Failure? {
          return Failure(cancelled.error);
        }
        return Failure(error.value);
      }
      return Success(results);
    }

    /** `try` once no earlier `try` has succeeded: the block, then `commit` or `cancel`. */
    method Attempt(body: seq<Op>) returns (r: Result<seq<Option<Doc>>, Error>)
      requires db.Valid() && !tried
      modifies this`usedModels, this`trying, this`tried, db`entities, db`txns, db`locks, db`shadow
      ensures db.Valid()
      ensures
        var b := Block(StepOfBak(old(db.entities), db.applyPatch, id, biz),
                       Touched(old(db.txns), old(usedModels), old(db.locks), old(db.shadow), Success(None)), body);
        var settled := SettledBak(old(db.entities), id, b);
        && (usedModels, r, db.entities, db.txns, db.locks, db.shadow)
           == (b.last.usedModels, settled.1, settled.0.entities, settled.0.txns, settled.0.locks, settled.0.shadow)
        && (r.Success? <==> tried && !trying)
        && (r.Failure? ==> trying && !tried)
    {
      trying := true;
      ghost var s0 := Touched(db.txns, usedModels, db.locks, db.shadow, Success(None));
      var results, failure, last := RunBlock(body);
      ghost var b := Block(StepOfBak(db.entities, db.applyPatch, id, biz), s0, body);
      assert b == Ran(Touched(db.txns, usedModels, db.locks, db.shadow, last), results, failure);
      r := Settle(results, failure, last);
      if r.Success? {
        trying := false;
        tried := true;
      }
    }

    /**
     * `try`: runs the block, then `commit`; on the first error the transaction
     * is cancelled and the error rethrown (or the cancel's own error).
     */
    method Try(body: seq<Op>) returns (r: Result<seq<Option<Doc>>, Error>)
      requires db.Valid()
      modifies this, db`entities, db`txns, db`locks, db`shadow
      ensures db.Valid()
      ensures old(tried) ==> r == Failure(TriedAgainBak()) && unchanged(this) && unchanged(db)
      ensures !old(tried) && r.Success? ==>
        && |r.value| == |body| && tried && !trying
        && OwnsNoLock(db.locks, id)
        && (id in db.txns ==> db.txns[id].state == Committed)
      ensures !old(tried) && r.Failure? ==> trying && !tried
      ensures !old(tried) && body == [] && id !in old(db.txns) ==>
        (r, db.entities, db.txns, db.locks, db.shadow) == (Success([]), old(db.entities), old(db.txns), old(db.locks), old(db.shadow))
      ensures StateOf(db.txns, id) == Some(Cancelled) && StateOf(old(db.txns), id) != Some(Cancelled) ==>
        && r.Failure?
        && OwnsNoLock(db.locks, id)
        && db.txns[id].errorMessage == Some(r.error.message)
      ensures !old(tried) ==>
        var b := Block(StepOfBak(old(db.entities), db.applyPatch, id, biz),
                       Touched(old(db.txns), old(usedModels), old(db.locks), old(db.shadow), Success(None)), body);
        var settled := SettledBak(old(db.entities), id, b);
        && TryPromiseBak(old(db.entities), id, b, r, db.entities, db.txns, db.locks, db.shadow)
        && (usedModels, r, db.entities, db.txns, db.locks, db.shadow)
           == (b.last.usedModels, settled.1, settled.0.entities, settled.0.txns, settled.0.locks, settled.0.shadow)
    {
      if tried {
        return Failure(TriedAgainBak());
      }
      r := Attempt(body);
      TryEndsBak(old(db.entities), db.applyPatch, id, biz,
                 Touched(old(db.txns), old(usedModels), old(db.locks), old(db.shadow), Success(None)), body);
    }
  }
}
