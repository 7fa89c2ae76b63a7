/**
 * Copy-on-first-touch staging: what a proxy read leaves in the shadow store
 * for one key, and which document it hands back.
 */
module Shadows {
  import opened Wrappers
  import opened Constants
  import opened Store
  import opened Replay

  /** The shadow store after staging a key, and the transaction's view of that key. */
  datatype Staged = Staged(shadow: map<Key, Shadow>, view: Option<Doc>)

  /**
   * index.js `_findOneAndLock` after locking, as written: a new lock first
   * clears any stale shadow copy; then the shadow copy is returned, and when
   * there is none the real entity is copied in, whether or not this
   * transaction touched the key before.
   */
  function StageAsWritten(shadow: map<Key, Shadow>, entities: map<Key, Doc>, k: Key, t: TxId, isNew: bool): Staged {
    var kept := if isNew then shadow - {k} else shadow;
    if k in kept then Staged(kept, Some(kept[k].doc))
    else if k in entities then Staged(kept[k := Shadow(Bare(entities[k]), t)], Some(Bare(entities[k])))
    else Staged(kept, None)
  }

  /**
   * The staging step with the copy made on the first touch only, that is when
   * the lock is new: a key this transaction already holds is seen exactly as
   * its shadow store has it, so a removed entity stays removed.
   */
  function Stage(shadow: map<Key, Shadow>, entities: map<Key, Doc>, k: Key, t: TxId, isNew: bool): (r: Staged)
    ensures r.view.Some? <==> k in r.shadow
    ensures r.view.Some? ==> r.shadow[k].doc == r.view.value
    ensures forall k' :: k' != k ==> Get(r.shadow, k') == Get(shadow, k')
    ensures isNew ==> r.view == (if k in entities then Some(Bare(entities[k])) else None)
    ensures isNew && k in r.shadow ==> r.shadow[k].tag == t
    ensures !isNew ==> r.shadow == shadow && r.view == (if k in shadow then Some(shadow[k].doc) else None)
  {
    var kept := if isNew then shadow - {k} else shadow;
    if k in kept then Staged(kept, Some(kept[k].doc))
    else if k in entities && isNew then Staged(kept[k := Shadow(Bare(entities[k]), t)], Some(Bare(entities[k])))
    else Staged(kept, None)
  }

  /**
   * As written, an entity removed earlier in the transaction (lock held, no
   * shadow copy, last logged operation a remove) is copied back from the real
   * collection on the next read, and the replay then writes it back instead of
   * deleting it.
   */
  lemma RemovedEntityReappears(shadow: map<Key, Shadow>, entities: map<Key, Doc>, k: Key, t: TxId, actions: seq<Action>)
    requires k !in shadow && k in entities && LastOp(actions, k) == Some(Remove)
    ensures StageAsWritten(shadow, entities, k, t, false).view == Some(Bare(entities[k]))
    ensures FinalAt(entities, StageAsWritten(shadow, entities, k, t, false).shadow, actions, DeleteIfRemoved, k).Some?
  {
  }

  /** A concrete instance: entity `p1` of model `person`, removed and then read again. */
  lemma RemoveThenReadExample()
    ensures var k := Key("person", "p1");
            var entities := map[k := Doc(map["name" := Text("Misery")])];
            var staged := StageAsWritten(map[], entities, k, "t1", false);
            && staged.view == Some(Doc(map["name" := Text("Misery")]))
            && FinalAt(entities, staged.shadow, [Action(Remove, k)], DeleteIfRemoved, k) == Some(Doc(map["name" := Text("Misery")]))
  {
    var k := Key("person", "p1");
    var d := Doc(map["name" := Text("Misery")]);
    assert Bare(d).fields == d.fields;
    assert Upsert(Some(d), Bare(d)).fields == d.fields;
  }

  /** With the copy on first touch only, a removed entity stays invisible and the replay deletes it. */
  lemma RemovedEntityStaysRemoved(shadow: map<Key, Shadow>, entities: map<Key, Doc>, k: Key, t: TxId,
                                  actions: seq<Action>, policy: Policy)
    requires k !in shadow && LastOp(actions, k) == Some(Remove)
    ensures Stage(shadow, entities, k, t, false).view.None?
    ensures FinalAt(entities, Stage(shadow, entities, k, t, false).shadow, actions, policy, k).None?
  {
  }

  /**
   * index_bak.js `_findOneAndLock` after locking: a shadow copy, whoever
   * tagged it, is returned as is; without one the real entity is copied in
   * (minus `__v`, tagged with `t`) and the real entity itself is returned.
   */
  function StageBak(shadow: map<Key, Shadow>, entities: map<Key, Doc>, k: Key, t: TxId): (r: Staged)
    ensures r.view.Some? <==> k in r.shadow
    ensures forall k' :: k' != k ==> Get(r.shadow, k') == Get(shadow, k')
    ensures k in shadow ==> r == Staged(shadow, Some(shadow[k].doc))
    ensures k !in shadow ==> r.view == Get(entities, k)
    ensures k !in shadow && k in entities ==> r.shadow[k] == Shadow(Bare(entities[k]), t)
  {
    if k in shadow then Staged(shadow, Some(shadow[k].doc))
    else if k in entities then Staged(shadow[k := Shadow(Bare(entities[k]), t)], Some(entities[k]))
    else Staged(shadow, None)
  }

  /**
   * The first touch of an entity returns the real document, and every later
   * touch the shadow copy made from it, without its `__v`.
   */
  lemma BakFirstTouchReturnsReal(shadow: map<Key, Shadow>, entities: map<Key, Doc>, k: Key, t: TxId)
    requires k !in shadow && k in entities
    ensures StageBak(shadow, entities, k, t).view == Some(entities[k])
    ensures var again := StageBak(StageBak(shadow, entities, k, t).shadow, entities, k, t);
            again.view == Some(Bare(entities[k])) && again.shadow == StageBak(shadow, entities, k, t).shadow
  {
  }
}
