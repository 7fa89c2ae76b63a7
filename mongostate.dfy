/**
 * The `Transaction` coordinator of index.js: a transaction's reads and writes
 * go to shadow copies of locked entities, and `finish` replays the action log
 * into the real collections, while `cancel` discards the shadow copies.
 */
module Mongostate {
  import opened Wrappers
  import opened Constants
  import opened Errors
  import opened Store
  import opened Replay
  import opened Shadows

  /** The transaction may stage an entity: its record is missing (and will be created) or pending. */
  predicate CanTouch(txns: map<TxId, TxRecord>, t: TxId) {
    t !in txns || txns[t].state == Pending
  }

  /** `_initTransaction` reached only when no record exists: a fresh pending record. */
  function Opened(txns: map<TxId, TxRecord>, t: TxId, biz: map<string, Value>): (r: map<TxId, TxRecord>)
    ensures t in r && r[t] == (if t in txns then txns[t] else NewRecord(biz))
    ensures forall t' :: t' != t ==> Get(r, t') == Get(txns, t')
  {
    if t in txns then txns else txns[t := NewRecord(biz)]
  }

  /** `_addUsedModel`: the name is persisted only when the instance has not registered the model yet. */
  function Registered(txns: map<TxId, TxRecord>, t: TxId, m: ModelName, usedModels: set<ModelName>): (r: map<TxId, TxRecord>)
    ensures t !in txns ==> r == txns
    ensures t in txns ==> t in r && r[t].state == txns[t].state && r[t].actions == txns[t].actions
    ensures t in txns && m !in usedModels ==> m in r[t].usedModelNames
    ensures forall t' :: t' != t ==> Get(r, t') == Get(txns, t')
  {
    if m in usedModels then txns else WithUsedModel(txns, t, m)
  }

  /** The record after `_findOneAndLock`'s first steps: created when missing, then the model registered. */
  function Admit(txns: map<TxId, TxRecord>, t: TxId, biz: map<string, Value>,
                 m: ModelName, usedModels: set<ModelName>): (r: map<TxId, TxRecord>)
    requires CanTouch(txns, t)
    ensures t in r && r[t].state == Pending
    ensures m !in usedModels ==> m in r[t].usedModelNames
    ensures r[t].actions == (if t in txns then txns[t].actions else [])
    ensures forall t' :: t' != t ==> Get(r, t') == Get(txns, t')
  {
    Registered(Opened(txns, t, biz), t, m, usedModels)
  }

  /** The entity's `id` property in the lock error: the id of a found entity, `undefined` for a missing one. */
  function Shown(entities: map<Key, Doc>, k: Key): string {
    if k in entities then k.entity else "undefined"
  }

  /** The state a proxy read leaves behind, and its result. */
  datatype Touched = Touched(
    txns: map<TxId, TxRecord>,
    usedModels: set<ModelName>,
    locks: map<Key, TxId>,
    shadow: map<Key, Shadow>,
    result: Result<Option<Doc>, Error>)

  /** The state one operation may leave a record's state in: as it was, or a fresh pending record. */
  predicate StateKept(before: map<TxId, TxRecord>, after: map<TxId, TxRecord>, t: TxId) {
    StateOf(after, t) == StateOf(before, t) || (StateOf(before, t).None? && StateOf(after, t) == Some(Pending))
  }

  /**
   * The locking and staging half of `_findOneAndLock`, once the record is
   * pending and the model registered: refused when another transaction holds
   * `k`; otherwise `k` is locked for `t` and the result is the transaction's
   * own view of the entity.
   */
  function Acquire(entities: map<Key, Doc>, shadow: map<Key, Shadow>, locks: map<Key, TxId>,
                   txns: map<TxId, TxRecord>, usedModels: set<ModelName>, t: TxId, k: Key): (r: Touched)
    ensures r.txns == txns && r.usedModels == usedModels
    ensures r.result.Success? <==> !LockedByOther(locks, k, t)
    ensures LockedByOther(locks, k, t) ==>
      r.result == Failure(Locked(k.model, Shown(entities, k))) && r.locks == locks && r.shadow == shadow
    ensures r.result.Success? ==>
      && r.locks == locks[k := t]
      && (r.result.value.Some? <==> k in r.shadow)
      && (r.result.value.Some? ==> r.shadow[k].doc == r.result.value.value)
      && (forall k' :: k' != k ==> Get(r.shadow, k') == Get(shadow, k'))
      && (k !in locks ==> r.result.value == (if k in entities then Some(Bare(entities[k])) else None))
      && (k !in locks && k in r.shadow ==> r.shadow[k].tag == t)
      && (k in locks ==> r.shadow == shadow)
  {
    if LockedByOther(locks, k, t) then
      Touched(txns, usedModels, locks, shadow, Failure(Locked(k.model, Shown(entities, k))))
    else
      var staged := Stage(shadow, entities, k, t, k !in locks);
      Touched(txns, usedModels, locks[k := t], staged.shadow, Success(staged.view))
  }

  /**
   * `_findOneAndLock` on key `k` (with the copy made on the first touch only):
   * refused outside `try` and unless the record is missing or pending; then
   * the record is created when missing, the model registered, and `Acquire` runs.
   */
  function Touch(entities: map<Key, Doc>, shadow: map<Key, Shadow>, locks: map<Key, TxId>,
                 txns: map<TxId, TxRecord>, usedModels: set<ModelName>, trying: bool,
                 t: TxId, biz: map<string, Value>, k: Key): (r: Touched)
    ensures !trying ==> r == Touched(txns, usedModels, locks, shadow, Failure(OutsideTry()))
    ensures trying && !CanTouch(txns, t) ==> r == Touched(txns, usedModels, locks, shadow, Failure(NotPending()))
    ensures trying && CanTouch(txns, t) ==>
      && r == Acquire(entities, shadow, locks, r.txns, r.usedModels, t, k)
      && t in r.txns && r.txns[t].state == Pending
      && r.usedModels == usedModels + {k.model}
      && (k.model !in usedModels ==> k.model in r.txns[t].usedModelNames)
      && r.txns[t].actions == (if t in txns then txns[t].actions else [])
    ensures forall t' :: t' != t ==> Get(r.txns, t') == Get(txns, t')
    ensures StateKept(txns, r.txns, t)
    ensures usedModels <= r.usedModels
    ensures r.result.Success? && r.result.value.Some? ==> k in r.shadow
  {
    if !trying then Touched(txns, usedModels, locks, shadow, Failure(OutsideTry()))
    else if !CanTouch(txns, t) then Touched(txns, usedModels, locks, shadow, Failure(NotPending()))
    else
      Acquire(entities, shadow, locks, Admit(txns, t, biz, k.model, usedModels), usedModels + {k.model}, t, k)
  }

  /** Lock exclusivity: once `t1` has touched `k`, a touch of `k` by any other transaction is refused and changes no lock or shadow copy. */
  lemma OthersLockedOut(entities: map<Key, Doc>, shadow: map<Key, Shadow>, locks: map<Key, TxId>,
                        txns: map<TxId, TxRecord>, used1: set<ModelName>, used2: set<ModelName>,
                        t1: TxId, t2: TxId, biz1: map<string, Value>, biz2: map<string, Value>, k: Key)
    requires t1 != t2
    requires Touch(entities, shadow, locks, txns, used1, true, t1, biz1, k).result.Success?
    ensures var first := Touch(entities, shadow, locks, txns, used1, true, t1, biz1, k);
            var second := Touch(entities, first.shadow, first.locks, first.txns, used2, true, t2, biz2, k);
            && second.result.Failure?
            && second.result.error in {NotPending(), Locked(k.model, Shown(entities, k))}
            && second.locks == first.locks && second.shadow == first.shadow
  {
  }

  /** The id `create` stores a document under: its own `_id` when that is set, a fresh one otherwise. */
  function CreateId(requested: Option<EntityId>, generated: EntityId): EntityId {
    if requested.Some? && requested.value != "" then requested.value else generated
  }

  /** A document as `_initSubStateData` stores it, minus the `__t` tag the shadow copy keeps apart. */
  function Untagged(d: Doc): (r: Doc)
    ensures TagKey !in r.fields
    ensures forall f :: f in d.fields && f != TagKey ==> f in r.fields && r.fields[f] == d.fields[f]
    ensures r.fields.Keys <= d.fields.Keys
  {
    Doc(d.fields - {TagKey})
  }

  /** `_findOneAndRemove` once its touch `s` of `k` is done: a null read, or one REMOVE logged and the copy deleted. */
  function RemoveStep(s: Touched, t: TxId, k: Key): (r: Touched)
    ensures StateOf(r.txns, t) == StateOf(s.txns, t) && r.usedModels == s.usedModels && r.locks == s.locks
    ensures forall t' :: t' != t ==> Get(r.txns, t') == Get(s.txns, t')
    ensures r.result.Success? <==> s.result.Success? && s.result.value.Some?
    ensures r.result.Success? ==>
      && r.result == s.result && k !in r.shadow
      && (forall k' :: k' != k ==> Get(r.shadow, k') == Get(s.shadow, k'))
      && r.txns == WithAction(s.txns, t, Action(Remove, k))
    ensures r.result.Failure? ==>
      && r.txns == s.txns && r.shadow == s.shadow
      && r.result == (if s.result.Failure? then s.result else Failure(NullRead("_id")))
  {
    match s.result
    case Failure(_) => s
    case Success(None) => s.(result := Failure(NullRead("_id")))
    case Success(Some(_)) => s.(txns := WithAction(s.txns, t, Action(Remove, k)), shadow := s.shadow - {k})
  }

  /**
   * `_findOneAndUpdate` once its touch `s` of `k` is done: nothing on an
   * invisible entity; otherwise one UPDATE logged, the rewritten patch applied
   * to the shadow copy, and the copy before or after the update returned.
   */
  function UpdateStep(applyPatch: (Doc, Patch) -> Doc, s: Touched, t: TxId, k: Key, patch: Patch, returnNew: bool): (r: Touched)
    requires s.result.Success? && s.result.value.Some? ==> k in s.shadow
    ensures StateOf(r.txns, t) == StateOf(s.txns, t) && r.usedModels == s.usedModels && r.locks == s.locks
    ensures forall t' :: t' != t ==> Get(r.txns, t') == Get(s.txns, t')
    ensures !(s.result.Success? && s.result.value.Some?) ==> r == s
    ensures s.result.Success? && s.result.value.Some? ==>
      var updated := applyPatch(s.shadow[k].doc, RewriteUnset(patch));
      && r.result == Success(Some(if returnNew then updated else s.shadow[k].doc))
      && k in r.shadow && r.shadow[k] == Shadow(updated, s.shadow[k].tag)
      && (forall k' :: k' != k ==> Get(r.shadow, k') == Get(s.shadow, k'))
      && r.txns == WithAction(s.txns, t, Action(Update, k))
  {
    match s.result
    case Failure(_) => s
    case Success(None) => s
    case Success(Some(_)) =>
      var before := s.shadow[k];
      var updated := applyPatch(before.doc, RewriteUnset(patch));
      Touched(WithAction(s.txns, t, Action(Update, k)), s.usedModels, s.locks,
              s.shadow[k := Shadow(updated, before.tag)], Success(Some(if returnNew then updated else before.doc)))
  }

  /** `_create` once its touch `s` of `k` is done: refused on a visible entity; otherwise one CREATE and one tagged copy. */
  function CreateStep(s: Touched, t: TxId, k: Key, doc: Doc): (r: Touched)
    ensures StateOf(r.txns, t) == StateOf(s.txns, t) && r.usedModels == s.usedModels && r.locks == s.locks
    ensures forall t' :: t' != t ==> Get(r.txns, t') == Get(s.txns, t')
    ensures r.result.Success? <==> s.result == Success(None)
    ensures r.result.Success? ==>
      && r.result == Success(Some(Untagged(doc)))
      && k in r.shadow && r.shadow[k] == Shadow(Untagged(doc), t)
      && (forall k' :: k' != k ==> Get(r.shadow, k') == Get(s.shadow, k'))
      && r.txns == WithAction(s.txns, t, Action(Operation.Create, k))
    ensures r.result.Failure? ==>
      && r.txns == s.txns && r.shadow == s.shadow
      && r.result == (if s.result.Failure? then s.result else Failure(AlreadyExists(k.model, k.entity)))
  {
    match s.result
    case Failure(_) => s
    case Success(Some(_)) => s.(result := Failure(AlreadyExists(k.model, k.entity)))
    case Success(None) =>
      Touched(WithAction(s.txns, t, Action(Operation.Create, k)), s.usedModels, s.locks,
              s.shadow[k := Shadow(Untagged(doc), t)], Success(Some(Untagged(doc))))
  }

  /** A transaction reads its own writes: after an update of `k`, the next read returns the updated document. */
  lemma ReadsOwnUpdate(entities: map<Key, Doc>, applyPatch: (Doc, Patch) -> Doc, shadow: map<Key, Shadow>, locks: map<Key, TxId>,
                       txns: map<TxId, TxRecord>, used: set<ModelName>, t: TxId, biz: map<string, Value>,
                       k: Key, patch: Patch, returnNew: bool)
    requires var first := Touch(entities, shadow, locks, txns, used, true, t, biz, k);
             first.result.Success? && first.result.value.Some?
    ensures var first := Touch(entities, shadow, locks, txns, used, true, t, biz, k);
            var updated := UpdateStep(applyPatch, first, t, k, patch, returnNew);
            var second := Touch(entities, updated.shadow, updated.locks, updated.txns, updated.usedModels, true, t, biz, k);
            && second.result == Success(Some(applyPatch(first.shadow[k].doc, RewriteUnset(patch))))
            && second.shadow == updated.shadow
  {
  }

  /** With the copy on first touch only, an entity removed earlier in the transaction stays invisible to it. */
  lemma RemovedStaysInvisible(entities: map<Key, Doc>, shadow: map<Key, Shadow>, locks: map<Key, TxId>,
                              txns: map<TxId, TxRecord>, used: set<ModelName>, t: TxId, biz: map<string, Value>, k: Key)
    requires var first := Touch(entities, shadow, locks, txns, used, true, t, biz, k);
             first.result.Success? && first.result.value.Some?
    ensures var first := Touch(entities, shadow, locks, txns, used, true, t, biz, k);
            var removed := RemoveStep(first, t, k);
            var second := Touch(entities, removed.shadow, removed.locks, removed.txns, removed.usedModels, true, t, biz, k);
            second.result == Success(None) && second.shadow == removed.shadow
  {
  }

  /** The key a proxy call touches. */
  function KeyOf(op: Op): Key
    requires !op.Throw?
  {
    match op
    case ProxyCreate(m, requested, generated, _) => Key(m, CreateId(requested, generated))
    case ProxyFindOne(m, e) => Key(m, e)
    case ProxyUpdate(m, e, _, _) => Key(m, e)
    case ProxyRemove(m, e) => Key(m, e)
  }

  /** The rest of a proxy call once its touch `s` of `KeyOf(op)` is done. */
  function AfterTouch(applyPatch: (Doc, Patch) -> Doc, t: TxId, op: Op, s: Touched): (r: Touched)
    requires !op.Throw?
    requires s.result.Success? && s.result.value.Some? ==> KeyOf(op) in s.shadow
    ensures StateOf(r.txns, t) == StateOf(s.txns, t) && r.usedModels == s.usedModels
    ensures forall t' :: t' != t ==> Get(r.txns, t') == Get(s.txns, t')
  {
    match op
    case ProxyCreate(_, _, _, doc) => CreateStep(s, t, KeyOf(op), doc)
    case ProxyFindOne(_, _) => s
    case ProxyUpdate(_, _, patch, returnNew) => UpdateStep(applyPatch, s, t, KeyOf(op), patch, returnNew)
    case ProxyRemove(_, _) => RemoveStep(s, t, KeyOf(op))
  }

  /**
   * One call of the block on the state (`txns`, `usedModels`, `locks`,
   * `shadow`): a proxy operation or the block's own error. No call changes
   * the lifecycle state of a record, other than creating this one pending,
   * or any other transaction's record.
   */
  function Step(entities: map<Key, Doc>, applyPatch: (Doc, Patch) -> Doc, trying: bool, t: TxId, biz: map<string, Value>,
                txns: map<TxId, TxRecord>, usedModels: set<ModelName>, locks: map<Key, TxId>, shadow: map<Key, Shadow>,
                op: Op): (r: Touched)
    ensures usedModels <= r.usedModels
    ensures StateKept(txns, r.txns, t) && forall t' :: t' != t ==> Get(r.txns, t') == Get(txns, t')
  {
    if op.Throw? then Touched(txns, usedModels, locks, shadow, Failure(BizError(op.message)))
    else AfterTouch(applyPatch, t, op, Touch(entities, shadow, locks, txns, usedModels, trying, t, biz, KeyOf(op)))
  }

  /** One call of the block inside `try`, as a function of the state before it. */
  function StepOf(entities: map<Key, Doc>, applyPatch: (Doc, Patch) -> Doc, t: TxId, biz: map<string, Value>): (step: (Touched, Op) -> Touched)
  {
    (s: Touched, op: Op) => Step(entities, applyPatch, true, t, biz, s.txns, s.usedModels, s.locks, s.shadow, op)
  }

  /** The block of `try` after it ran: the state and result of its last call, the results of the calls, and its error. */
  datatype Ran = Ran(last: Touched, results: seq<Option<Doc>>, error: Option<Error>)

  /**
   * The block of `try` run from the state `s`, each call done by `step`:
   * call by call, stopping at the first error. A block that ends without
   * error returns one result per call.
   */
  function Block(step: (Touched, Op) -> Touched, s: Touched, body: seq<Op>): (r: Ran)
    ensures r.error.None? ==> |r.results| == |body|
    ensures r.error.Some? ==> |r.results| < |body| && r.last.result == Failure(r.error.value)
    decreases |body|, 1
  {
    if body == [] then Ran(s, [], None) else Next(step, s, body)
  }

  /** A non-empty block: its front run first, then its last call unless the front failed. */
  function Next(step: (Touched, Op) -> Touched, s: Touched, body: seq<Op>): (r: Ran)
    requires body != []
    ensures r.error.None? ==> |r.results| == |body|
    ensures r.error.Some? ==> |r.results| < |body| && r.last.result == Failure(r.error.value)
    decreases |body|, 0
  {
    var prev := Block(step, s, body[..|body| - 1]);
    if prev.error.Some? then prev
    else
      var n := step(prev.last, body[|body| - 1]);
      if n.result.Failure? then Ran(n, prev.results, Some(n.result.error))
      else Ran(n, prev.results + [n.result.value], None)
  }

  /** No call after the block's first error runs: a block that fails within its first `i` calls ends as that prefix does. */
  lemma {:induction false} BlockStopsAtError(step: (Touched, Op) -> Touched, s: Touched, body: seq<Op>, i: nat)
    requires i <= |body| && Block(step, s, body[..i]).error.Some?
    ensures Block(step, s, body) == Block(step, s, body[..i])
    decreases |body| - i
  {
    if i == |body| {
      assert body[..i] == body;
    } else {
      assert body[..|body| - 1][..i] == body[..i];
      BlockStopsAtError(step, s, body[..|body| - 1], i);
      assert Block(step, s, body) == Next(step, s, body);
    }
  }

  /** One more call of a block inside `try` that has not failed yet: the block's state is that call's. */
  lemma BlockExtend(entities: map<Key, Doc>, applyPatch: (Doc, Patch) -> Doc, t: TxId, biz: map<string, Value>,
                    s: Touched, body: seq<Op>, i: nat, cur: Touched, results: seq<Option<Doc>>, n: Touched)
    requires i < |body|
    requires Block(StepOf(entities, applyPatch, t, biz), s, body[..i]) == Ran(cur, results, None)
    requires Step(entities, applyPatch, true, t, biz, cur.txns, cur.usedModels, cur.locks, cur.shadow, body[i]) == n
    ensures Block(StepOf(entities, applyPatch, t, biz), s, body[..i + 1])
         == (if n.result.Failure? then Ran(n, results, Some(n.result.error)) else Ran(n, results + [n.result.value], None))
  {
    assert body[..i + 1][..i] == body[..i];
  }

  /** What a call of the block may do to the records: keep its record's state (or create it pending), register models only, and leave other records alone. */
  ghost predicate KeepsRecords(before: Touched, after: Touched, t: TxId) {
    && StateKept(before.txns, after.txns, t)
    && (forall t' :: t' != t ==> Get(after.txns, t') == Get(before.txns, t'))
    && before.usedModels <= after.usedModels
  }

  /** A block whose every call keeps the records keeps them as a whole. */
  lemma {:induction false} BlockKeepsRecordsOf(step: (Touched, Op) -> Touched, t: TxId, s: Touched, body: seq<Op>)
    requires forall p: Touched, op: Op :: KeepsRecords(p, step(p, op), t)
    ensures KeepsRecords(s, Block(step, s, body).last, t)
    decreases |body|
  {
    if body != [] {
      var prev := Block(step, s, body[..|body| - 1]);
      BlockKeepsRecordsOf(step, t, s, body[..|body| - 1]);
      if prev.error.None? {
        assert Block(step, s, body).last == step(prev.last, body[|body| - 1]);
      } else {
        assert Block(step, s, body).last == prev.last;
      }
    }
  }

  /**
   * The block of `try` leaves the lifecycle state of its record as it was (or
   * creates the record pending), registers models only, and changes no other
   * transaction's record.
   */
  lemma BlockKeepsRecords(entities: map<Key, Doc>, applyPatch: (Doc, Patch) -> Doc, t: TxId,
                          biz: map<string, Value>, s: Touched, body: seq<Op>)
    ensures var r := Block(StepOf(entities, applyPatch, t, biz), s, body);
            && StateKept(s.txns, r.last.txns, t)
            && (forall t' :: t' != t ==> Get(r.last.txns, t') == Get(s.txns, t'))
            && s.usedModels <= r.last.usedModels
  {
    var step := StepOf(entities, applyPatch, t, biz);
    forall p: Touched, op: Op
      ensures KeepsRecords(p, step(p, op), t)
    {
      assert step(p, op) == Step(entities, applyPatch, true, t, biz, p.txns, p.usedModels, p.locks, p.shadow, op);
    }
    BlockKeepsRecordsOf(step, t, s, body);
  }

  /** The store after `finish` or `cancel`, with its result. */
  datatype Ended = Ended(entities: map<Key, Doc>, txns: map<TxId, TxRecord>, locks: map<Key, TxId>,
                         shadow: map<Key, Shadow>, result: Result<(), Error>)

  /**
   * `finish`: a no-op without a record; refused unless the record is
   * committed or pending; otherwise the log is replayed into the real
   * collections and, when the replay completes and clearing is allowed, the
   * copies are cleared, the locks released and the record ends `finished`.
   */
  function FinishOutcome(entities: map<Key, Doc>, txns: map<TxId, TxRecord>, locks: map<Key, TxId>,
                         shadow: map<Key, Shadow>, usedModels: set<ModelName>, t: TxId): (r: Ended)
    ensures r.result.Success? && t in txns ==>
      && t in r.txns && r.txns[t].state == Finished && OwnsNoLock(r.locks, t)
      && forall k :: k in r.shadow && k.model in usedModels ==> r.shadow[k].tag != t
    ensures t in txns && txns[t].state in {Committed, Pending} ==>
      r.entities == Replayed(entities, shadow, usedModels, txns[t].actions, DeleteIfRemoved).entities
    ensures r.result.Failure? ==> r.locks == locks && r.shadow == shadow
    ensures forall t' :: t' != t ==> Get(r.txns, t') == Get(txns, t')
  {
    if t !in txns then Ended(entities, txns, locks, shadow, Success(()))
    else if txns[t].state !in {Committed, Pending} then
      Ended(entities, txns, locks, shadow, Failure(UnexpectedState(t, "committed/pending", txns[t].state)))
    else
      var record := txns[t];
      var o := Replayed(entities, shadow, usedModels, record.actions, DeleteIfRemoved);
      if o.Stopped? then Ended(o.entities, WithState(txns, t, Committed), locks, shadow, Failure(ModelNotUsed(o.model)))
      else if !Covered(record.usedModelNames, usedModels) then
        Ended(o.entities, WithState(txns, t, Activated), locks, shadow, Failure(UseFirst(record.usedModelNames)))
      else
        Ended(o.entities, WithState(txns, t, Finished), ReleaseLocks(locks, t), ClearShadows(shadow, t, usedModels), Success(()))
  }

  /**
   * `cancel` with `error`: a no-op without a record; refused unless the
   * record is pending or rolled back; otherwise the record is rolled back,
   * the copies cleared, the locks released and the record ends `cancelled`
   * with the error's message. The real collections are never written.
   */
  function CancelOutcome(entities: map<Key, Doc>, txns: map<TxId, TxRecord>, locks: map<Key, TxId>,
                         shadow: map<Key, Shadow>, usedModels: set<ModelName>, t: TxId, error: Error): (r: Ended)
    ensures r.entities == entities
    ensures r.result.Success? && t in txns ==>
      && t in r.txns && r.txns[t].state == Cancelled && r.txns[t].errorMessage == Some(error.message)
      && OwnsNoLock(r.locks, t)
      && forall k :: k in r.shadow && k.model in usedModels ==> r.shadow[k].tag != t
    ensures r.result.Failure? ==> r.locks == locks && r.shadow == shadow
    ensures forall t' :: t' != t ==> Get(r.txns, t') == Get(txns, t')
  {
    if t !in txns then Ended(entities, txns, locks, shadow, Success(()))
    else if txns[t].state !in {Pending, State.Rollback} then
      Ended(entities, txns, locks, shadow, Failure(UnexpectedState(t, "pending/rollback", txns[t].state)))
    else if !Covered(txns[t].usedModelNames, usedModels) then
      Ended(entities, WithState(txns, t, State.Rollback), locks, shadow, Failure(UseFirst(txns[t].usedModelNames)))
    else
      Ended(entities, WithCancelled(txns, t, error.message), ReleaseLocks(locks, t), ClearShadows(shadow, t, usedModels), Success(()))
  }

  /**
   * How `try` ends once its block ran as `b`: `finish` when the block
   * succeeded, then `cancel` with the first error of the block or of `finish`;
   * that error is rethrown unless cancelling fails, whose error is thrown instead.
   */
  function Settled(entities: map<Key, Doc>, t: TxId, b: Ran): (r: (Ended, Result<seq<Option<Doc>>, Error>))
    ensures b.error.Some? ==> r.0.entities == entities
    ensures b.error.Some? && r.0.result.Success? ==> r.1 == Failure(b.error.value)
    ensures b.error.Some? && t in b.last.txns && b.last.txns[t].state == Pending
            && Covered(b.last.txns[t].usedModelNames, b.last.usedModels) ==>
      && r.1 == Failure(b.error.value)
      && r.0.txns == WithCancelled(b.last.txns, t, b.error.value.message)
      && r.0.locks == ReleaseLocks(b.last.locks, t)
      && r.0.shadow == ClearShadows(b.last.shadow, t, b.last.usedModels)
    ensures r.1.Success? ==> b.error.None? && r.0.result.Success? && r.1.value == b.results
    ensures b.error.None? && t in b.last.txns && b.last.txns[t].state in {Committed, Pending}
            && Replayed(entities, b.last.shadow, b.last.usedModels, b.last.txns[t].actions, DeleteIfRemoved).Done?
            && Covered(b.last.txns[t].usedModelNames, b.last.usedModels) ==>
      && r.1 == Success(b.results)
      && r.0.txns == WithState(b.last.txns, t, Finished)
      && r.0.locks == ReleaseLocks(b.last.locks, t)
      && r.0.shadow == ClearShadows(b.last.shadow, t, b.last.usedModels)
    ensures b.error.None? && t in b.last.txns && b.last.txns[t].state in {Committed, Pending} ==>
      r.0.entities == Replayed(entities, b.last.shadow, b.last.usedModels, b.last.txns[t].actions, DeleteIfRemoved).entities
    ensures StateOf(r.0.txns, t) == Some(Cancelled) && StateOf(b.last.txns, t) != Some(Cancelled) ==>
      && r.1.Failure? && r.0.entities == entities && OwnsNoLock(r.0.locks, t)
      && t in r.0.txns && r.0.txns[t].errorMessage == Some(r.1.error.message)
  {
    var s := b.last;
    match b.error
    case Some(e) =>
      var c := CancelOutcome(entities, s.txns, s.locks, s.shadow, s.usedModels, t, e);
      (c, Failure(if c.result.Failure? then c.result.error else e))
    case None =>
      var f := FinishOutcome(entities, s.txns, s.locks, s.shadow, s.usedModels, t);
      if f.result.Success? then (f, Success(b.results))
      else
        var c := CancelOutcome(f.entities, f.txns, f.locks, f.shadow, s.usedModels, t, f.result.error);
        (c, Failure(if c.result.Failure? then c.result.error else f.result.error))
  }

  /**
   * What `try` promises once its block ran as `b` over the real collections
   * `entities`, given the collections after it and its result `r`: a block that
   * failed leaves the real collections untouched, and when its record is pending
   * with every model registered the error is rethrown, the record cancelled with
   * its message, its locks released and its shadows cleared; a block that
   * succeeded leaves the real collections as the record's actions replay onto them.
   */
  ghost predicate TryPromise(entities: map<Key, Doc>, t: TxId, b: Ran, r: Result<seq<Option<Doc>>, Error>,
                             entities': map<Key, Doc>, txns': map<TxId, TxRecord>,
                             locks': map<Key, TxId>, shadow': map<Key, Shadow>)
  {
    var s := b.last;
    && (b.error.Some? ==> entities' == entities)
    && (b.error.Some? && t in s.txns && s.txns[t].state == Pending && Covered(s.txns[t].usedModelNames, s.usedModels) ==>
          && r == Failure(b.error.value)
          && txns' == WithCancelled(s.txns, t, b.error.value.message)
          && locks' == ReleaseLocks(s.locks, t)
          && shadow' == ClearShadows(s.shadow, t, s.usedModels))
    && (b.error.None? && t in s.txns && s.txns[t].state in {Committed, Pending} ==>
          entities' == Replayed(entities, s.shadow, s.usedModels, s.txns[t].actions, DeleteIfRemoved).entities)
  }

  /**
   * How `try` ends, as a function of the state `s` before it: on success one
   * result per call and the record, if any, finished and holding no lock; an empty block
   * without a record changes nothing; a record `try` cancels carries the
   * error rethrown, and the real collections are untouched.
   */
  lemma {:induction false} TryEnds(entities: map<Key, Doc>, applyPatch: (Doc, Patch) -> Doc, t: TxId,
                                  biz: map<string, Value>, s: Touched, body: seq<Op>)
    ensures var b := Block(StepOf(entities, applyPatch, t, biz), s, body);
            var settled := Settled(entities, t, b);
            && (settled.1.Success? ==>
                  && |settled.1.value| == |body|
                  && (t in settled.0.txns ==> settled.0.txns[t].state == Finished && OwnsNoLock(settled.0.locks, t)))
            && (body == [] && t !in s.txns ==>
                  settled == (Ended(entities, s.txns, s.locks, s.shadow, Success(())), Success([])))
            && (StateOf(settled.0.txns, t) == Some(Cancelled) && StateOf(s.txns, t) != Some(Cancelled) ==>
                  && settled.1.Failure? && settled.0.entities == entities && OwnsNoLock(settled.0.locks, t)
                  && t in settled.0.txns && settled.0.txns[t].errorMessage == Some(settled.1.error.message))
            && TryPromise(entities, t, b, settled.1, settled.0.entities, settled.0.txns, settled.0.locks, settled.0.shadow)
  {
    BlockKeepsRecords(entities, applyPatch, t, biz, s, body);
  }

  class Transaction {
    const id: TxId
    const db: Db
    /** The `biz` option: caller context saved in the record. */
    const biz: map<string, Value>
    /** `_usedModels`: the models this instance has registered. */
    var usedModels: set<ModelName>
    var trying: bool
    var tried: bool

    /** `requested` is the `id` option (an empty string counts as absent); `generated` the fresh ObjectId. */
    constructor (db: Db, requested: Option<TxId>, generated: TxId, biz: Option<map<string, Value>>)
      ensures this.db == db
      ensures id == (if requested.Some? && requested.value != "" then requested.value else generated)
      ensures this.biz == (if biz.Some? then biz.value else map[])
      ensures usedModels == {} && !trying && !tried
    {
      this.db := db;
      id := if requested.Some? && requested.value != "" then requested.value else generated;
      this.biz := if biz.Some? then biz.value else map[];
      usedModels := {};
      trying := false;
      tried := false;
    }

    /** `_initTransaction`: creates the record when missing; refuses a cancelled or finished one. */
    method InitTransaction() returns (r: Result<TxRecord, Error>)
      requires db.Valid()
      modifies db`txns
      ensures db.Valid()
      ensures id !in old(db.txns) ==> r == Success(NewRecord(biz)) && db.txns == old(db.txns)[id := NewRecord(biz)]
      ensures id in old(db.txns) && old(db.txns)[id].state.Closed() ==>
        r == Failure(ClosedState(id, old(db.txns)[id].state)) && db.txns == old(db.txns)
      ensures id in old(db.txns) && !old(db.txns)[id].state.Closed() ==>
        r == Success(old(db.txns)[id]) && db.txns == old(db.txns)
    {
      if id !in db.txns {
        var created := NewRecord(biz);
        db.txns := db.txns[id := created];
        return Success(created);
      }
      var record := db.txns[id];
      if record.state.Closed() {
        return Failure(ClosedState(id, record.state));
      }
      return Success(record);
    }

    /** `_addUsedModel`. */
    method AddUsedModel(m: ModelName)
      requires db.Valid()
      modifies this`usedModels, db`txns
      ensures db.Valid()
      ensures usedModels == old(usedModels) + {m}
      ensures db.txns == Registered(old(db.txns), id, m, old(usedModels))
    {
      if m !in usedModels {
        usedModels := usedModels + {m};
        db.txns := WithUsedModel(db.txns, id, m);
      }
    }

    /** `forceUseModel`: registers a model without persisting its name. */
    method ForceUseModel(m: ModelName)
      modifies this`usedModels
      ensures usedModels == old(usedModels) + {m}
    {
      if m !in usedModels {
        usedModels := usedModels + {m};
      }
    }

    /** `_pushAction`. */
    method PushAction(a: Action)
      requires db.Valid()
      modifies db`txns
      ensures db.Valid()
      ensures db.txns == WithAction(old(db.txns), id, a)
    {
      db.txns := WithAction(db.txns, id, a);
    }

    /**
     * `_lock`: refuses a key another transaction holds; otherwise makes sure
     * this transaction holds it and reports whether the lock is new.
     * `found` says whether the real entity exists, which decides the id the error shows.
     */
    method Lock(k: Key, found: bool) returns (r: Result<bool, Error>)
      requires db.Valid() && StateOf(db.txns, id) == Some(Pending)
      modifies db`locks
      ensures db.Valid()
      ensures LockedByOther(old(db.locks), k, id) ==>
        r == Failure(Locked(k.model, if found then k.entity else "undefined")) && db.locks == old(db.locks)
      ensures !LockedByOther(old(db.locks), k, id) ==>
        r == Success(k !in old(db.locks)) && db.locks == old(db.locks)[k := id]
    {
      if LockedByOther(db.locks, k, id) {
        return Failure(Locked(k.model, if found then k.entity else "undefined"));
      }
      var isNew := false;
      if k !in db.locks {
        // With no lock of another transaction on `k`, the unique index refuses
        // the insert only under a concurrent insert, which this model does not have.
        var duplicate := db.InsertLock(k, id);
        isNew := true;
      }
      assert db.locks == old(db.locks)[k := id];
      return Success(isNew);
    }

    /**
     * The staging half of `_findOneAndLock`, once `k` is locked: a new lock
     * clears any stale shadow copy, and the real entity `src` is copied in on
     * the first touch.
     */
    method StageEntity(k: Key, src: Option<Doc>, isNew: bool) returns (view: Option<Doc>)
      requires src == Get(db.entities, k)
      modifies db`shadow
      ensures Staged(db.shadow, view) == Stage(old(db.shadow), db.entities, k, id, isNew)
    {
      if isNew {
        db.shadow := db.shadow - {k};
      }
      var sub := Get(db.shadow, k);
      view := if sub.Some? then Some(sub.value.doc) else None;
      if view.None? && src.Some? && isNew {
        var copy := Bare(src.value);
        db.shadow := db.shadow[k := Shadow(copy, id)];
        view := Some(copy);
      }
    }

    /** The part of `_findOneAndLock` from `_lock` on: `Acquire`. */
    method LockAndStage(k: Key) returns (r: Result<Option<Doc>, Error>)
      requires db.Valid() && StateOf(db.txns, id) == Some(Pending)
      modifies db`locks, db`shadow
      ensures db.Valid()
      ensures Acquire(db.entities, old(db.shadow), old(db.locks), db.txns, usedModels, id, k)
           == Touched(db.txns, usedModels, db.locks, db.shadow, r)
    {
      var src := Get(db.entities, k);
      var locked := Lock(k, src.Some?);
      if locked.Failure? {
        return Failure(locked.error);
      }
      var view := StageEntity(k, src, locked.value);
      return Success(view);
    }

    /** `_findOneAndLock` with criteria `{_id: entity}` (also `findOne` and `findById`). */
    method FindOneAndLock(model: ModelName, entity: EntityId) returns (r: Result<Option<Doc>, Error>)
      requires db.Valid()
      modifies this`usedModels, db`txns, db`locks, db`shadow
      ensures db.Valid()
      ensures Touch(old(db.entities), old(db.shadow), old(db.locks), old(db.txns), old(usedModels), trying, id, biz, Key(model, entity))
           == Touched(db.txns, usedModels, db.locks, db.shadow, r)
    {
      var k := Key(model, entity);
      if !trying {
        return Failure(OutsideTry());
      }
      if id !in db.txns {
        var created := InitTransaction();
      }
      assert db.txns == Opened(old(db.txns), id, biz);
      assert CanTouch(old(db.txns), id) <==> db.txns[id].state == Pending;
      if db.txns[id].state != Pending {
        return Failure(NotPending());
      }
      AddUsedModel(model);
      r := LockAndStage(k);
    }

    /** `_findOneAndRemove` with query `{_id: entity}` (also `findByIdAndRemove`). */
    method FindOneAndRemove(model: ModelName, entity: EntityId) returns (r: Result<Option<Doc>, Error>)
      requires db.Valid()
      modifies this`usedModels, db`txns, db`locks, db`shadow
      ensures db.Valid()
      ensures RemoveStep(Touch(old(db.entities), old(db.shadow), old(db.locks), old(db.txns), old(usedModels),
                               trying, id, biz, Key(model, entity)), id, Key(model, entity))
           == Touched(db.txns, usedModels, db.locks, db.shadow, r)
    {
      var k := Key(model, entity);
      var found := FindOneAndLock(model, entity);
      if found.Failure? {
        return Failure(found.error);
      }
      if found.value.None? {
        return Failure(NullRead("_id"));
      }
      PushAction(Action(Remove, k));
      var removed := db.shadow[k].doc;
      db.shadow := db.shadow - {k};
      return Success(Some(removed));
    }

    /**
     * `_findOneAndUpdate` with query `{_id: entity}` (also `findByIdAndUpdate`):
     * the update goes to the shadow copy, with `$unset` rewritten; the result is
     * the document before the update, or after it when `returnNew` (the `new` option).
     */
    method FindOneAndUpdate(model: ModelName, entity: EntityId, patch: Patch, returnNew: bool)
      returns (r: Result<Option<Doc>, Error>)
      requires db.Valid()
      modifies this`usedModels, db`txns, db`locks, db`shadow
      ensures db.Valid()
      ensures UpdateStep(db.applyPatch, Touch(old(db.entities), old(db.shadow), old(db.locks), old(db.txns), old(usedModels),
                                              trying, id, biz, Key(model, entity)), id, Key(model, entity), patch, returnNew)
           == Touched(db.txns, usedModels, db.locks, db.shadow, r)
    {
      var k := Key(model, entity);
      var found := FindOneAndLock(model, entity);
      if found.Failure? {
        return Failure(found.error);
      }
      if found.value.None? {
        return Success(None);
      }
      PushAction(Action(Update, k));
      var before := db.shadow[k];
      var updated := db.applyPatch(before.doc, RewriteUnset(patch));
      db.shadow := db.shadow[k := Shadow(updated, before.tag)];
      return Success(Some(if returnNew then updated else before.doc));
    }

    /**
     * `_create`: refuses an id the transaction already sees; otherwise logs the
     * create and stores the document as a shadow copy tagged with this transaction.
     */
    method Create(model: ModelName, requested: Option<EntityId>, generated: EntityId, doc: Doc)
      returns (r: Result<Doc, Error>)
      requires db.Valid()
      modifies this`usedModels, db`txns, db`locks, db`shadow
      ensures db.Valid()
      ensures CreateStep(Touch(old(db.entities), old(db.shadow), old(db.locks), old(db.txns), old(usedModels),
                               trying, id, biz, Key(model, CreateId(requested, generated))), id, Key(model, CreateId(requested, generated)), doc)
           == Touched(db.txns, usedModels, db.locks, db.shadow, if r.Success? then Success(Some(r.value)) else Failure(r.error))
    {
      var entity := CreateId(requested, generated);
      var k := Key(model, entity);
      var found := FindOneAndLock(model, entity);
      if found.Failure? {
        return Failure(found.error);
      }
      if found.value.Some? {
        return Failure(AlreadyExists(model, entity));
      }
      PushAction(Action(Operation.Create, k));
      var stored := Untagged(doc);
      db.shadow := db.shadow[k := Shadow(stored, id)];
      return Success(stored);
    }

    /**
     * `_activate`: replays the log newest first into the real collections,
     * writing each key once; a no-op without a record or once activated.
     */
    method Activate() returns (r: Result<(), Error>)
      requires db.Valid()
      modifies db`entities, db`txns
      ensures db.Valid()
      ensures id !in old(db.txns) ==> r == Success(()) && db.entities == old(db.entities) && db.txns == old(db.txns)
      ensures id in old(db.txns) && old(db.txns)[id].state !in {Activated, Committed} ==>
        && r == Failure(UnexpectedState(id, "activated/committed", old(db.txns)[id].state))
        && db.entities == old(db.entities) && db.txns == old(db.txns)
      ensures id in old(db.txns) && old(db.txns)[id].state == Activated ==>
        r == Success(()) && db.entities == old(db.entities) && db.txns == old(db.txns)
      ensures id in old(db.txns) && old(db.txns)[id].state == Committed ==>
        var o := Replayed(old(db.entities), db.shadow, usedModels, old(db.txns)[id].actions, DeleteIfRemoved);
        && db.entities == o.entities
        && (o.Done? ==> r == Success(()) && db.txns == WithState(old(db.txns), id, Activated))
        && (o.Stopped? ==> r == Failure(ModelNotUsed(o.model)) && db.txns == old(db.txns))
    {
      if id !in db.txns {
        return Success(());
      }
      var record := db.txns[id];
      if record.state != Activated && record.state != Committed {
        return Failure(UnexpectedState(id, "activated/committed", record.state));
      }
      if record.state == Activated {
        return Success(());
      }
      var actions := Reverse(record.actions);
      var activated: set<Key> := {};
      var i := 0;
      assert actions[i..] == actions;
      while i < |actions|
        invariant 0 <= i <= |actions|
        invariant db.txns == old(db.txns)
        invariant Run(db.entities, db.shadow, usedModels, actions[i..], activated, DeleteIfRemoved)
               == Replayed(old(db.entities), db.shadow, usedModels, record.actions, DeleteIfRemoved)
      {
        var a := actions[i];
        assert actions[i..][0] == a && actions[i..][1..] == actions[i + 1..];
        if a.key in activated {
          i := i + 1;
          continue;
        }
        activated := activated + {a.key};
        if a.key.model !in usedModels {
          return Failure(ModelNotUsed(a.key.model));
        }
        var before := db.entities;
        var sub := Get(db.shadow, a.key);
        if sub.Some? {
          var doc := Bare(sub.value.doc);
          if a.key in db.entities {
            db.entities := db.entities[a.key := Doc(db.entities[a.key].fields + doc.fields)];
          } else {
            db.entities := db.entities[a.key := doc];
          }
        } else if a.operation == Remove {
          db.entities := db.entities - {a.key};
        }
        assert db.entities == SetAt(before, a.key, WriteAt(Get(before, a.key), sub, a.operation, DeleteIfRemoved)) by {
          SameEverywhere(db.entities, SetAt(before, a.key, WriteAt(Get(before, a.key), sub, a.operation, DeleteIfRemoved)));
        }
        i := i + 1;
      }
      db.txns := WithState(db.txns, id, Activated);
      return Success(());
    }

    /**
     * `_clearSubStateData`: refuses when the record lists a model this
     * instance has not registered; otherwise deletes, model by model, every
     * shadow copy tagged with this transaction.
     */
    method ClearSubStateData() returns (r: Result<(), Error>)
      requires db.Valid()
      modifies db`shadow
      ensures db.Valid()
      ensures id !in db.txns ==> r == Failure(NullRead("usedModelNames")) && db.shadow == old(db.shadow)
      ensures id in db.txns && !Covered(db.txns[id].usedModelNames, usedModels) ==>
        r == Failure(UseFirst(db.txns[id].usedModelNames)) && db.shadow == old(db.shadow)
      ensures id in db.txns && Covered(db.txns[id].usedModelNames, usedModels) ==>
        r == Success(()) && db.shadow == ClearShadows(old(db.shadow), id, usedModels)
    {
      if id !in db.txns {
        return Failure(NullRead("usedModelNames"));
      }
      var names := db.txns[id].usedModelNames;
      if !Covered(names, usedModels) {
        return Failure(UseFirst(names));
      }
      var todo := usedModels;
      ClearShadowsStep(db.shadow, id, {}, "");
      while todo != {}
        invariant todo <= usedModels
        invariant db.shadow == ClearShadows(old(db.shadow), id, usedModels - todo)
        decreases todo
      {
        var m :| m in todo;
        ClearShadowsStep(old(db.shadow), id, usedModels - todo, m);
        db.shadow := ClearShadows(db.shadow, id, {m});
        assert usedModels - todo + {m} == usedModels - (todo - {m});
        todo := todo - {m};
      }
      return Success(());
    }

    /** `_unlock`: deletes every lock this transaction holds. */
    method Unlock()
      requires db.Valid()
      modifies db`locks
      ensures db.Valid()
      ensures db.locks == ReleaseLocks(old(db.locks), id)
    {
      db.locks := ReleaseLocks(db.locks, id);
    }

    /** `_commit`: marks the record committed, activates it and clears its shadow copies. */
    method Commit() returns (r: Result<(), Error>)
      requires db.Valid()
      modifies db`entities, db`txns, db`shadow
      ensures db.Valid()
      ensures id !in old(db.txns) ==> r == Success(()) && db.entities == old(db.entities) && db.txns == old(db.txns) && db.shadow == old(db.shadow)
      ensures id in old(db.txns) && old(db.txns)[id].state !in {Pending, Committed} ==>
        && r == Failure(UnexpectedState(id, "pending/committed", old(db.txns)[id].state))
        && db.entities == old(db.entities) && db.txns == old(db.txns) && db.shadow == old(db.shadow)
      ensures id in old(db.txns) && old(db.txns)[id].state in {Pending, Committed} ==>
        var record := old(db.txns)[id];
        var o := Replayed(old(db.entities), old(db.shadow), usedModels, record.actions, DeleteIfRemoved);
        && db.entities == o.entities
        && (o.Stopped? ==>
              r == Failure(ModelNotUsed(o.model)) && db.txns == WithState(old(db.txns), id, Committed) && db.shadow == old(db.shadow))
        && (o.Done? ==> db.txns == WithState(old(db.txns), id, Activated))
        && (o.Done? && Covered(record.usedModelNames, usedModels) ==>
              r == Success(()) && db.shadow == ClearShadows(old(db.shadow), id, usedModels))
        && (o.Done? && !Covered(record.usedModelNames, usedModels) ==>
              r == Failure(UseFirst(record.usedModelNames)) && db.shadow == old(db.shadow))
    {
      if id !in db.txns {
        return Success(());
      }
      var record := db.txns[id];
      if record.state != Pending && record.state != Committed {
        return Failure(UnexpectedState(id, "pending/committed", record.state));
      }
      db.txns := WithState(db.txns, id, Committed);
      var activated := Activate();
      if activated.Failure? {
        return activated;
      }
      r := ClearSubStateData();
    }

    /**
     * `finish`: commits, releases the locks and marks the record finished; a
     * failure leaves everything as it was or the record committed or activated.
     */
    method Finish() returns (r: Result<(), Error>)
      requires db.Valid()
      modifies db`entities, db`txns, db`locks, db`shadow
      ensures db.Valid()
      ensures id !in old(db.txns) ==> r == Success(()) && unchanged(db)
      ensures id in old(db.txns) && old(db.txns)[id].state !in {Committed, Pending} ==>
        r == Failure(UnexpectedState(id, "committed/pending", old(db.txns)[id].state)) && unchanged(db)
      ensures id in old(db.txns) && old(db.txns)[id].state in {Committed, Pending} ==>
        var record := old(db.txns)[id];
        var o := Replayed(old(db.entities), old(db.shadow), usedModels, record.actions, DeleteIfRemoved);
        && db.entities == o.entities
        && (o.Done? && Covered(record.usedModelNames, usedModels) ==>
              && r == Success(())
              && db.txns == WithState(old(db.txns), id, Finished)
              && db.shadow == ClearShadows(old(db.shadow), id, usedModels)
              && db.locks == ReleaseLocks(old(db.locks), id))
        && (o.Stopped? ==>
              && r == Failure(ModelNotUsed(o.model)) && db.txns == WithState(old(db.txns), id, Committed)
              && db.shadow == old(db.shadow) && db.locks == old(db.locks))
        && (o.Done? && !Covered(record.usedModelNames, usedModels) ==>
              && r == Failure(UseFirst(record.usedModelNames)) && db.txns == WithState(old(db.txns), id, Activated)
              && db.shadow == old(db.shadow) && db.locks == old(db.locks))
      ensures r.Failure? ==>
        unchanged(db) || StateOf(db.txns, id) == Some(Committed) || StateOf(db.txns, id) == Some(Activated)
      ensures r.Success? ==> OwnsNoLock(db.locks, id) && (id in db.txns ==> db.txns[id].state == Finished)
      ensures var o := FinishOutcome(old(db.entities), old(db.txns), old(db.locks), old(db.shadow), usedModels, id);
              (r, db.entities, db.txns, db.locks, db.shadow) == (o.result, o.entities, o.txns, o.locks, o.shadow)
    {
      if id !in db.txns {
        return Success(());
      }
      var record := db.txns[id];
      if record.state != Committed && record.state != Pending {
        return Failure(UnexpectedState(id, "committed/pending", record.state));
      }
      var committed := Commit();
      if committed.Failure? {
        return committed;
      }
      Unlock();
      db.txns := WithState(db.txns, id, Finished);
      return Success(());
    }

    /** `_rollback`: marks the record rolled back and clears its shadow copies. */
    method Rollback() returns (r: Result<(), Error>)
      requires db.Valid()
      modifies db`txns, db`shadow
      ensures db.Valid()
      ensures id !in old(db.txns) ==> r == Failure(NullRead("state")) && db.txns == old(db.txns) && db.shadow == old(db.shadow)
      ensures id in old(db.txns) && old(db.txns)[id].state !in {Pending, State.Rollback} ==>
        && r == Failure(UnexpectedState(id, "pending/rollback", old(db.txns)[id].state))
        && db.txns == old(db.txns) && db.shadow == old(db.shadow)
      ensures id in old(db.txns) && old(db.txns)[id].state in {Pending, State.Rollback} ==>
        var record := old(db.txns)[id];
        && db.txns == WithState(old(db.txns), id, State.Rollback)
        && (Covered(record.usedModelNames, usedModels) ==>
              r == Success(()) && db.shadow == ClearShadows(old(db.shadow), id, usedModels))
        && (!Covered(record.usedModelNames, usedModels) ==>
              r == Failure(UseFirst(record.usedModelNames)) && db.shadow == old(db.shadow))
    {
      if id !in db.txns {
        return Failure(NullRead("state"));
      }
      var record := db.txns[id];
      if record.state != Pending && record.state != State.Rollback {
        return Failure(UnexpectedState(id, "pending/rollback", record.state));
      }
      db.txns := WithState(db.txns, id, State.Rollback);
      r := ClearSubStateData();
    }

    /**
     * `cancel`: rolls back, releases the locks and marks the record cancelled
     * with the error's message; the real collections are never written.
     */
    method Cancel(error: Error) returns (r: Result<(), Error>)
      requires db.Valid()
      modifies db`txns, db`shadow, db`locks
      ensures db.Valid()
      ensures db.entities == old(db.entities)
      ensures id !in old(db.txns) ==> r == Success(()) && unchanged(db)
      ensures id in old(db.txns) && old(db.txns)[id].state !in {Pending, State.Rollback} ==>
        r == Failure(UnexpectedState(id, "pending/rollback", old(db.txns)[id].state)) && unchanged(db)
      ensures id in old(db.txns) && old(db.txns)[id].state in {Pending, State.Rollback} ==>
        var record := old(db.txns)[id];
        && (Covered(record.usedModelNames, usedModels) ==>
              && r == Success(())
              && db.txns == WithCancelled(old(db.txns), id, error.message)
              && db.shadow == ClearShadows(old(db.shadow), id, usedModels)
              && db.locks == ReleaseLocks(old(db.locks), id))
        && (!Covered(record.usedModelNames, usedModels) ==>
              && r == Failure(UseFirst(record.usedModelNames))
              && db.txns == WithState(old(db.txns), id, State.Rollback)
              && db.shadow == old(db.shadow) && db.locks == old(db.locks))
      ensures var o := CancelOutcome(old(db.entities), old(db.txns), old(db.locks), old(db.shadow), usedModels, id, error);
              (r, db.entities, db.txns, db.locks, db.shadow) == (o.result, o.entities, o.txns, o.locks, o.shadow)
    {
      if id !in db.txns {
        return Success(());
      }
      var record := db.txns[id];
      if record.state != Pending && record.state != State.Rollback {
        return Failure(UnexpectedState(id, "pending/rollback", record.state));
      }
      var rolledBack := Rollback();
      if rolledBack.Failure? {
        return rolledBack;
      }
      Unlock();
      db.txns := WithCancelled(db.txns, id, error.message);
      return Success(());
    }

    /** One call of the block: a proxy operation, or the block's own error. */
    method RunOp(op: Op) returns (r: Result<Option<Doc>, Error>)
      requires db.Valid()
      modifies this`usedModels, db`txns, db`locks, db`shadow
      ensures db.Valid()
      ensures Step(db.entities, db.applyPatch, trying, id, biz, old(db.txns), old(usedModels), old(db.locks), old(db.shadow), op)
           == Touched(db.txns, usedModels, db.locks, db.shadow, r)
      ensures op.Throw? ==> r == Failure(BizError(op.message)) && unchanged(this) && unchanged(db)
    {
      match op
      case ProxyCreate(m, requested, generated, doc) =>
        var created := Create(m, requested, generated, doc);
        r := if created.Success? then Success(Some(created.value)) else Failure(created.error);
      case ProxyFindOne(m, e) =>
        r := FindOneAndLock(m, e);
      case ProxyUpdate(m, e, patch, returnNew) =>
        r := FindOneAndUpdate(m, e, patch, returnNew);
      case ProxyRemove(m, e) =>
        r := FindOneAndRemove(m, e);
      case Throw(message) =>
        r := Failure(BizError(message));
    }

    /** The next call of a block that has not failed yet, with the block's results and error after it. */
    method RunNext(ghost s0: Touched, body: seq<Op>, i: nat, results: seq<Option<Doc>>, ghost last: Result<Option<Doc>, Error>)
      returns (result: Result<Option<Doc>, Error>, results': seq<Option<Doc>>, failure: Option<Error>)
      requires db.Valid() && trying && i < |body|
      requires Block(StepOf(db.entities, db.applyPatch, id, biz), s0, body[..i])
            == Ran(Touched(db.txns, usedModels, db.locks, db.shadow, last), results, None)
      modifies this`usedModels, db`txns, db`locks, db`shadow
      ensures db.Valid()
      ensures Block(StepOf(db.entities, db.applyPatch, id, biz), s0, body[..i + 1])
           == Ran(Touched(db.txns, usedModels, db.locks, db.shadow, result), results', failure)
    {
      ghost var cur := Touched(db.txns, usedModels, db.locks, db.shadow, last);
      result := RunOp(body[i]);
      BlockExtend(db.entities, db.applyPatch, id, biz, s0, body, i, cur, results, Touched(db.txns, usedModels, db.locks, db.shadow, result));
      if result.Failure? {
        results', failure := results, Some(result.error);
      } else {
        results', failure := results + [result.value], None;
      }
    }

    /** The block of `try`: each call in turn, until the first error. */
    method RunBlock(body: seq<Op>) returns (results: seq<Option<Doc>>, failure: Option<Error>, ghost last: Result<Option<Doc>, Error>)
      requires db.Valid() && trying
      modifies this`usedModels, db`txns, db`locks, db`shadow
      ensures db.Valid()
      ensures Block(StepOf(db.entities, db.applyPatch, id, biz),
                    Touched(old(db.txns), old(usedModels), old(db.locks), old(db.shadow), Success(None)), body)
           == Ran(Touched(db.txns, usedModels, db.locks, db.shadow, last), results, failure)
      decreases |body|
    {
      if body == [] {
        return [], None, Success(None);
      }
      ghost var s0 := Touched(db.txns, usedModels, db.locks, db.shadow, Success(None));
      results, failure, last := RunBlock(body[..|body| - 1]);
      if failure.None? {
        last, results, failure := RunNext(s0, body, |body| - 1, results, last);
        assert body[..|body|] == body;
      }
    }

    /** The end of `try` once its block ran: `finish`, then `cancel` with the first error. */
    method Settle(results: seq<Option<Doc>>, failure: Option<Error>, ghost last: Result<Option<Doc>, Error>)
      returns (r: Result<seq<Option<Doc>>, Error>)
      requires db.Valid()
      modifies db`entities, db`txns, db`locks, db`shadow
      ensures db.Valid()
      ensures var settled := Settled(old(db.entities), id, Ran(Touched(old(db.txns), usedModels, old(db.locks), old(db.shadow), last), results, failure));
              (r, db.entities, db.txns, db.locks, db.shadow)
              == (settled.1, settled.0.entities, settled.0.txns, settled.0.locks, settled.0.shadow)
    {
      var error := failure;
      if error.None? {
        var finished := Finish();
        if finished.Failure? {
          error := Some(finished.error);
        }
      }
      if error.Some? {
        var cancelled := Cancel(error.value);
        if cancelled.Failure? {
          return Failure(cancelled.error);
        }
        return Failure(error.value);
      }
      return Success(results);
    }

    /** `try` once no earlier `try` has succeeded: the block, then `finish` or `cancel`. */
    method Attempt(body: seq<Op>) returns (r: Result<seq<Option<Doc>>, Error>)
      requires db.Valid() && !tried
      modifies this`usedModels, this`trying, this`tried, db`entities, db`txns, db`locks, db`shadow
      ensures db.Valid()
      ensures
        var b := Block(StepOf(old(db.entities), db.applyPatch, id, biz),
                       Touched(old(db.txns), old(usedModels), old(db.locks), old(db.shadow), Success(None)), body);
        var settled := Settled(old(db.entities), id, b);
        && (usedModels, r, db.entities, db.txns, db.locks, db.shadow)
           == (b.last.usedModels, settled.1, settled.0.entities, settled.0.txns, settled.0.locks, settled.0.shadow)
        && (r.Success? <==> tried && !trying)
        && (r.Failure? ==> trying && !tried)
    {
      trying := true;
      ghost var s0 := Touched(db.txns, usedModels, db.locks, db.shadow, Success(None));
      var results, failure, last := RunBlock(body);
      ghost var b := Block(StepOf(db.entities, db.applyPatch, id, biz), s0, body);
      assert b == Ran(Touched(db.txns, usedModels, db.locks, db.shadow, last), results, failure);
      r := Settle(results, failure, last);
      if r.Success? {
        trying := false;
        tried := true;
      }
    }

    /**
     * `try`: runs the block, then `finish`; on the first error the transaction
     * is cancelled and the error rethrown (or the cancel's own error, when
     * cancelling fails). A second `try` after a successful one is refused.
     */
    method Try(body: seq<Op>) returns (r: Result<seq<Option<Doc>>, Error>)
      requires db.Valid()
      modifies this, db`entities, db`txns, db`locks, db`shadow
      ensures db.Valid()
      ensures old(tried) ==> r == Failure(TriedAgain()) && unchanged(this) && unchanged(db)
      ensures !old(tried) && r.Success? ==>
        && |r.value| == |body|
        && OwnsNoLock(db.locks, id)
        && (id in db.txns ==> db.txns[id].state == Finished)
      ensures !old(tried) && body == [] && id !in old(db.txns) ==>
        (r, db.entities, db.txns, db.locks, db.shadow) == (Success([]), old(db.entities), old(db.txns), old(db.locks), old(db.shadow))
      ensures StateOf(db.txns, id) == Some(Cancelled) && StateOf(old(db.txns), id) != Some(Cancelled) ==>
        && r.Failure?
        && db.entities == old(db.entities)
        && OwnsNoLock(db.locks, id)
        && db.txns[id].errorMessage == Some(r.error.message)
      ensures !old(tried) ==>
        var b := Block(StepOf(old(db.entities), db.applyPatch, id, biz),
                       Touched(old(db.txns), old(usedModels), old(db.locks), old(db.shadow), Success(None)), body);
        var settled := Settled(old(db.entities), id, b);
        && TryPromise(old(db.entities), id, b, r, db.entities, db.txns, db.locks, db.shadow)
        && (r.Success? <==> tried && !trying)
        && (r.Failure? ==> trying && !tried)
        && (usedModels, r, db.entities, db.txns, db.locks, db.shadow)
           == (b.last.usedModels, settled.1, settled.0.entities, settled.0.txns, settled.0.locks, settled.0.shadow)
    {
      if tried {
        return Failure(TriedAgain());
      }
      r := Attempt(body);
      TryEnds(old(db.entities), db.applyPatch, id, biz,
              Touched(old(db.txns), old(usedModels), old(db.locks), old(db.shadow), Success(None)), body);
    }
  }
}
