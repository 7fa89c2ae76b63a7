/**
 * The document store the coordinator runs on, seen through the single-document
 * operations it offers: the real collections, the per-model sub-state (shadow)
 * collections, the lock collection and the transaction collection.
 */
module Store {
  import opened Wrappers
  import opened Constants
  import opened Errors

  type ModelName = string
  type EntityId = string
  type TxId = string

  /** A (model, entity) pair: the key of a real document, of its shadow copy and of its lock. */
  datatype Key = Key(model: ModelName, entity: EntityId)

  datatype Value = Null | Bool(b: bool) | Num(n: int) | Text(s: string)

  /** A document's fields; its `_id` is the entity part of its key. */
  datatype Doc = Doc(fields: map<string, Value>)

  /** Mongoose's version key and the shadow copy's transaction tag. */
  const VersionKey: string := "__v"
  const TagKey: string := "__t"

  /** A document minus its `__v` and `__t` bookkeeping fields. */
  function Bare(d: Doc): (r: Doc)
    ensures VersionKey !in r.fields && TagKey !in r.fields
    ensures forall f :: f in d.fields && f != VersionKey && f != TagKey ==> f in r.fields && r.fields[f] == d.fields[f]
    ensures r.fields.Keys <= d.fields.Keys
  {
    Doc(d.fields - {VersionKey, TagKey})
  }

  /**
   * A shadow document: the transaction's working copy, tagged (`__t`) with the
   * owning transaction's id.
   */
  datatype Shadow = Shadow(doc: Doc, tag: TxId)

  /** A Mongo update document: `$set`, `$unset` and any other operators, which only the store interprets. */
  datatype Patch = Patch(setOp: Option<map<string, Value>>, unsetOp: Option<set<string>>, otherOps: map<string, map<string, Value>>)

  /** The rewrite of `$unset` into `$set` to null that both coordinators apply before updating a shadow copy. */
  function RewriteUnset(p: Patch): (q: Patch)
    ensures q.unsetOp.None? && q.otherOps == p.otherOps
    ensures p.unsetOp.None? ==> q == p
    ensures p.unsetOp.Some? ==> q.setOp.Some?
    ensures p.unsetOp.Some? ==> forall f :: f in p.unsetOp.value ==> f in q.setOp.value && q.setOp.value[f] == Null
    ensures p.unsetOp.Some? ==> forall f :: f in q.setOp.value && f !in p.unsetOp.value ==>
      p.setOp.Some? && f in p.setOp.value && q.setOp.value[f] == p.setOp.value[f]
    ensures p.unsetOp.Some? && p.setOp.Some? ==> p.setOp.value.Keys <= q.setOp.value.Keys
  {
    match p.unsetOp
    case None => p
    case Some(unset) =>
      var base := if p.setOp.Some? then p.setOp.value else map[];
      Patch(Some(base + map f | f in unset :: Null), None, p.otherOps)
  }

  /** The write `_activate`/`commit` makes: `create` when absent, else `findByIdAndUpdate`, which `$set`s every field of `d`. */
  function Upsert(prev: Option<Doc>, d: Doc): (r: Doc)
    ensures prev.None? ==> r == d
    ensures forall f :: f in d.fields ==> f in r.fields && r.fields[f] == d.fields[f]
    ensures prev.Some? ==> forall f :: f in prev.value.fields && f !in d.fields ==> f in r.fields && r.fields[f] == prev.value.fields[f]
    ensures prev.Some? ==> r.fields.Keys == prev.value.fields.Keys + d.fields.Keys
  {
    match prev
    case None => d
    case Some(old_) => Doc(old_.fields + d.fields)
  }

  /** One entry of a transaction's action log. */
  datatype Action = Action(operation: Operation, key: Key)

  /** A document of the transaction collection (lib/schemas/transaction.js). */
  datatype TxRecord = TxRecord(
    state: State,
    usedModelNames: seq<ModelName>,
    actions: seq<Action>,
    errorMessage: Option<string>,
    biz: map<string, Value>)

  /** A newly created transaction document: the schema's defaults plus the caller's context. */
  function NewRecord(biz: map<string, Value>): TxRecord {
    TxRecord(Pending, [], [], None, biz)
  }

  function StateOf(txns: map<TxId, TxRecord>, t: TxId): Option<State> {
    if t in txns then Some(txns[t].state) else None
  }

  /** `$addToSet` on an array field. */
  function AddToSet(names: seq<ModelName>, m: ModelName): (r: seq<ModelName>)
    ensures m in r
    ensures forall n :: n in r <==> n in names || n == m
    ensures |names| <= |r| <= |names| + 1 && r[..|names|] == names
    ensures m in names ==> r == names
  {
    if m in names then names else names + [m]
  }

  /*
   * `findByIdAndUpdate` on the transaction collection, which does nothing when
   * no record has that id.
   */
  function WithState(txns: map<TxId, TxRecord>, t: TxId, s: State): map<TxId, TxRecord> {
    if t in txns then txns[t := txns[t].(state := s)] else txns
  }

  function WithAction(txns: map<TxId, TxRecord>, t: TxId, a: Action): map<TxId, TxRecord> {
    if t in txns then txns[t := txns[t].(actions := txns[t].actions + [a])] else txns
  }

  function WithUsedModel(txns: map<TxId, TxRecord>, t: TxId, m: ModelName): map<TxId, TxRecord> {
    if t in txns then txns[t := txns[t].(usedModelNames := AddToSet(txns[t].usedModelNames, m))] else txns
  }

  function WithCancelled(txns: map<TxId, TxRecord>, t: TxId, message: string): map<TxId, TxRecord> {
    if t in txns then txns[t := txns[t].(state := Cancelled, errorMessage := Some(message))] else txns
  }

  predicate LockedByOther(locks: map<Key, TxId>, k: Key, t: TxId) {
    k in locks && locks[k] != t
  }

  predicate OwnsNoLock(locks: map<Key, TxId>, t: TxId) {
    forall k :: k in locks ==> locks[k] != t
  }

  /** `LockModel.remove({transaction: t})`. */
  function ReleaseLocks(locks: map<Key, TxId>, t: TxId): (r: map<Key, TxId>)
    ensures OwnsNoLock(r, t)
    ensures forall k :: k in locks && locks[k] != t ==> k in r && r[k] == locks[k]
    ensures r.Keys <= locks.Keys
  {
    map k | k in locks && locks[k] != t :: locks[k]
  }

  /** `SSModel.remove({__t: t})` for every model in `models`. */
  function ClearShadows(shadow: map<Key, Shadow>, t: TxId, models: set<ModelName>): (r: map<Key, Shadow>)
    ensures forall k :: k in r ==> !(r[k].tag == t && k.model in models)
    ensures forall k :: k in shadow && !(shadow[k].tag == t && k.model in models) ==> k in r && r[k] == shadow[k]
    ensures r.Keys <= shadow.Keys
  {
    map k | k in shadow && !(shadow[k].tag == t && k.model in models) :: shadow[k]
  }

  /** Clearing model by model, in any order, clears the union of the models. */
  lemma ClearShadowsStep(shadow: map<Key, Shadow>, t: TxId, done: set<ModelName>, m: ModelName)
    ensures ClearShadows(ClearShadows(shadow, t, done), t, {m}) == ClearShadows(shadow, t, done + {m})
    ensures ClearShadows(shadow, t, {}) == shadow
  {
    assert ClearShadows(ClearShadows(shadow, t, done), t, {m}).Keys == ClearShadows(shadow, t, done + {m}).Keys;
    assert ClearShadows(shadow, t, {}).Keys == shadow.Keys;
  }

  /** Every model name the record lists is registered with the coordinator instance. */
  predicate Covered(names: seq<ModelName>, used: set<ModelName>) {
    forall n :: n in names ==> n in used
  }

  /** A call the transaction's block makes through a `use` proxy, or an error the block throws. */
  datatype Op =
      /** `create(doc)`: `requested` is the document's own `_id`, `generated` the fresh id used without one. */
    | ProxyCreate(model: ModelName, requested: Option<EntityId>, generated: EntityId, doc: Doc)
    | ProxyFindOne(model: ModelName, entity: EntityId)
    | ProxyUpdate(model: ModelName, entity: EntityId, patch: Patch, returnNew: bool)
    | ProxyRemove(model: ModelName, entity: EntityId)
    | Throw(message: string)

  /** The shared store. Methods of all coordinator instances act on one `Db`. */
  class Db {
    var entities: map<Key, Doc>
    var shadow: map<Key, Shadow>
    var locks: map<Key, TxId>
    var txns: map<TxId, TxRecord>
    /** How the store applies an update document; the coordinator never interprets one. */
    const applyPatch: (Doc, Patch) -> Doc

    /** A lock is only ever held by a transaction whose record exists and is neither finished nor cancelled. */
    ghost predicate Valid()
      reads this
    {
      forall k :: k in locks ==> locks[k] in txns && !txns[locks[k]].state.Closed()
    }

    constructor (applyPatch: (Doc, Patch) -> Doc)
      ensures Valid()
      ensures entities == map[] && shadow == map[] && locks == map[] && txns == map[]
      ensures this.applyPatch == applyPatch
    {
      entities, shadow, locks, txns := map[], map[], map[], map[];
      this.applyPatch := applyPatch;
    }

    /** `LockModel.create`: the unique index on (model, entity) refuses a second lock for a key. */
    method InsertLock(k: Key, t: TxId) returns (duplicate: bool)
      requires Valid() && t in txns && !txns[t].state.Closed()
      modifies this`locks
      ensures Valid()
      ensures duplicate == (k in old(locks))
      ensures locks == if duplicate then old(locks) else old(locks)[k := t]
    {
      duplicate := k in locks;
      if !duplicate {
        locks := locks[k := t];
      }
    }
  }
}
