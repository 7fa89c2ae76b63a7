/**
 * The action log replay that copies shadow state into the real collections:
 * the log is walked newest first and each (model, entity) is written once,
 * from its shadow copy, or deleted.
 */
module Replay {
  import opened Wrappers
  import opened Constants
  import opened Errors
  import opened Store

  /** What a replay does with a logged entity that has no shadow copy. */
  datatype Policy =
      /** index.js `_activate`: delete it only when its last logged operation is a remove. */
    | DeleteIfRemoved
      /** index_bak.js `commit`: delete it whatever was logged. */
    | DeleteAlways

  /** `Array.prototype.reverse`. */
  function Reverse<T>(s: seq<T>): (r: seq<T>)
    ensures |r| == |s|
    ensures forall i :: 0 <= i < |s| ==> r[i] == s[|s| - 1 - i]
    decreases |s|
  {
    if s == [] then [] else [s[|s| - 1]] + Reverse(s[..|s| - 1])
  }

  /** The value one key ends with when the replay reaches it. */
  function WriteAt(prev: Option<Doc>, sub: Option<Shadow>, op: Operation, policy: Policy): Option<Doc> {
    match sub
    case Some(s) => Some(Upsert(prev, Bare(s.doc)))
    case None => if policy == DeleteAlways || op == Remove then None else prev
  }

  function SetAt(m: map<Key, Doc>, k: Key, v: Option<Doc>): (r: map<Key, Doc>)
    ensures Get(r, k) == v
    ensures forall k' :: k' != k ==> Get(r, k') == Get(m, k')
  {
    match v
    case Some(d) => m[k := d]
    case None => m - {k}
  }

  /**
   * How a replay ends: every pending action handled, or stopped at an action
   * whose model this coordinator instance has not registered, with the writes
   * made so far.
   */
  datatype Outcome = Done(entities: map<Key, Doc>) | Stopped(entities: map<Key, Doc>, model: ModelName)

  /** The replay loop from the point where `pending` is left and the keys in `seen` are done. */
  function Run(entities: map<Key, Doc>, shadow: map<Key, Shadow>, used: set<ModelName>,
               pending: seq<Action>, seen: set<Key>, policy: Policy): Outcome
    decreases |pending|
  {
    if pending == [] then Done(entities)
    else
      var a := pending[0];
      if a.key in seen then Run(entities, shadow, used, pending[1..], seen, policy)
      else if a.key.model !in used then Stopped(entities, a.key.model)
      else
        var written := SetAt(entities, a.key, WriteAt(Get(entities, a.key), Get(shadow, a.key), a.operation, policy));
        Run(written, shadow, used, pending[1..], seen + {a.key}, policy)
  }

  /** The whole replay of a transaction's log. */
  function Replayed(entities: map<Key, Doc>, shadow: map<Key, Shadow>, used: set<ModelName>,
                  actions: seq<Action>, policy: Policy): Outcome
  {
    Run(entities, shadow, used, Reverse(actions), {}, policy)
  }

  /** The operation of the last action logged for `k`. */
  function LastOp(actions: seq<Action>, k: Key): Option<Operation>
    decreases |actions|
  {
    if actions == [] then None
    else if actions[|actions| - 1].key == k then Some(actions[|actions| - 1].operation)
    else LastOp(actions[..|actions| - 1], k)
  }

  /** The operation of the first action for `k` in `pending`. */
  function FirstOp(pending: seq<Action>, k: Key): Option<Operation>
    decreases |pending|
  {
    if pending == [] then None
    else if pending[0].key == k then Some(pending[0].operation)
    else FirstOp(pending[1..], k)
  }

  /**
   * Reference definition of a replay's result at `k`: an unlogged key keeps its
   * value; a logged key with a shadow copy gets that copy without `__v`/`__t`
   * (created or `$set` over the old value); a logged key without one is deleted
   * when the policy says so, and otherwise kept.
   */
  function FinalAt(entities: map<Key, Doc>, shadow: map<Key, Shadow>, actions: seq<Action>,
                   policy: Policy, k: Key): Option<Doc>
  {
    match LastOp(actions, k)
    case None => Get(entities, k)
    case Some(op) =>
      if k in shadow then Some(Upsert(Get(entities, k), Bare(shadow[k].doc)))
      else if op == Remove || policy == DeleteAlways then None
      else Get(entities, k)
  }

  lemma {:induction false} FirstOpOfReverse(s: seq<Action>, k: Key)
    ensures FirstOp(Reverse(s), k) == LastOp(s, k)
    decreases |s|
  {
    if s != [] {
      var init := s[..|s| - 1];
      assert Reverse(s) == [s[|s| - 1]] + Reverse(init);
      assert Reverse(s)[1..] == Reverse(init);
      FirstOpOfReverse(init, k);
    }
  }

  /** The replay loop writes each key once, from its first pending action. */
  lemma {:induction false} RunAt(entities: map<Key, Doc>, shadow: map<Key, Shadow>, used: set<ModelName>,
                                 pending: seq<Action>, seen: set<Key>, policy: Policy, k: Key)
    requires Run(entities, shadow, used, pending, seen, policy).Done?
    ensures Get(Run(entities, shadow, used, pending, seen, policy).entities, k) ==
      if k in seen || FirstOp(pending, k).None? then Get(entities, k)
      else WriteAt(Get(entities, k), Get(shadow, k), FirstOp(pending, k).value, policy)
    decreases |pending|
  {
    if pending != [] {
      var a := pending[0];
      if a.key in seen {
        RunAt(entities, shadow, used, pending[1..], seen, policy, k);
      } else {
        var written := SetAt(entities, a.key, WriteAt(Get(entities, a.key), Get(shadow, a.key), a.operation, policy));
        RunAt(written, shadow, used, pending[1..], seen + {a.key}, policy, k);
      }
    }
  }

  /** Each key's final value is decided by its last logged action and its shadow copy alone. */
  lemma ReplayDecidedByLastAction(entities: map<Key, Doc>, shadow: map<Key, Shadow>, used: set<ModelName>,
                                  actions: seq<Action>, policy: Policy)
    requires Replayed(entities, shadow, used, actions, policy).Done?
    ensures forall k :: Get(Replayed(entities, shadow, used, actions, policy).entities, k) == FinalAt(entities, shadow, actions, policy, k)
  {
    forall k ensures Get(Replayed(entities, shadow, used, actions, policy).entities, k) == FinalAt(entities, shadow, actions, policy, k) {
      RunAt(entities, shadow, used, Reverse(actions), {}, policy, k);
      FirstOpOfReverse(actions, k);
    }
  }

  lemma {:induction false} RunDoneIff(entities: map<Key, Doc>, shadow: map<Key, Shadow>, used: set<ModelName>,
                                      pending: seq<Action>, seen: set<Key>, policy: Policy)
    requires forall s :: s in seen ==> s.model in used
    ensures Run(entities, shadow, used, pending, seen, policy).Done? <==>
      forall i :: 0 <= i < |pending| ==> pending[i].key.model in used
    decreases |pending|
  {
    if pending != [] {
      var a := pending[0];
      assert forall i :: 0 < i < |pending| ==> pending[i] == pending[1..][i - 1];
      if a.key in seen {
        RunDoneIff(entities, shadow, used, pending[1..], seen, policy);
      } else if a.key.model in used {
        var written := SetAt(entities, a.key, WriteAt(Get(entities, a.key), Get(shadow, a.key), a.operation, policy));
        RunDoneIff(written, shadow, used, pending[1..], seen + {a.key}, policy);
      }
    }
  }

  /** A replay completes exactly when every logged model is registered with the coordinator instance. */
  lemma ReplayDoneIff(entities: map<Key, Doc>, shadow: map<Key, Shadow>, used: set<ModelName>,
                      actions: seq<Action>, policy: Policy)
    ensures Replayed(entities, shadow, used, actions, policy).Done? <==>
      forall i :: 0 <= i < |actions| ==> actions[i].key.model in used
  {
    var rev := Reverse(actions);
    RunDoneIff(entities, shadow, used, rev, {}, policy);
    assert forall i :: 0 <= i < |actions| ==> actions[i] == rev[|actions| - 1 - i];
  }

  lemma {:induction false} RunKeepsUnlogged(entities: map<Key, Doc>, shadow: map<Key, Shadow>, used: set<ModelName>,
                                            pending: seq<Action>, seen: set<Key>, policy: Policy, k: Key)
    requires forall i :: 0 <= i < |pending| ==> pending[i].key != k
    ensures Get(Run(entities, shadow, used, pending, seen, policy).entities, k) == Get(entities, k)
    decreases |pending|
  {
    if pending != [] {
      var a := pending[0];
      assert forall i :: 0 <= i < |pending| - 1 ==> pending[1..][i] == pending[i + 1];
      if a.key in seen {
        RunKeepsUnlogged(entities, shadow, used, pending[1..], seen, policy, k);
      } else if a.key.model in used {
        var written := SetAt(entities, a.key, WriteAt(Get(entities, a.key), Get(shadow, a.key), a.operation, policy));
        RunKeepsUnlogged(written, shadow, used, pending[1..], seen + {a.key}, policy, k);
      }
    }
  }

  /** Whether it completes or stops early, a replay writes only keys that appear in the log. */
  lemma ReplayTouchesOnlyLoggedKeys(entities: map<Key, Doc>, shadow: map<Key, Shadow>, used: set<ModelName>,
                                    actions: seq<Action>, policy: Policy, k: Key)
    requires forall i :: 0 <= i < |actions| ==> actions[i].key != k
    ensures Get(Replayed(entities, shadow, used, actions, policy).entities, k) == Get(entities, k)
  {
    var rev := Reverse(actions);
    assert forall i :: 0 <= i < |rev| ==> rev[i] == actions[|actions| - 1 - i];
    RunKeepsUnlogged(entities, shadow, used, rev, {}, policy, k);
  }

  lemma SameEverywhere(a: map<Key, Doc>, b: map<Key, Doc>)
    requires forall k :: Get(a, k) == Get(b, k)
    ensures a == b
  {
    assert forall k :: k in a <==> Get(a, k).Some?;
    assert a.Keys == b.Keys;
  }

  /** Replaying a completed replay again changes nothing: the copy step can be retried. */
  lemma ReplayIdempotent(entities: map<Key, Doc>, shadow: map<Key, Shadow>, used: set<ModelName>,
                         actions: seq<Action>, policy: Policy)
    requires Replayed(entities, shadow, used, actions, policy).Done?
    ensures Replayed(Replayed(entities, shadow, used, actions, policy).entities, shadow, used, actions, policy)
         == Replayed(entities, shadow, used, actions, policy)
  {
    var once := Replayed(entities, shadow, used, actions, policy).entities;
    ReplayDoneIff(entities, shadow, used, actions, policy);
    ReplayDoneIff(once, shadow, used, actions, policy);
    var twice := Replayed(once, shadow, used, actions, policy).entities;
    ReplayDecidedByLastAction(entities, shadow, used, actions, policy);
    ReplayDecidedByLastAction(once, shadow, used, actions, policy);
    forall k ensures Get(twice, k) == Get(once, k) {
      if LastOp(actions, k).Some? && k in shadow {
        var d := Bare(shadow[k].doc);
        var u := Upsert(Get(entities, k), d);
        assert Get(once, k) == Some(u);
        assert Upsert(Some(u), d).fields == u.fields;
      }
    }
    SameEverywhere(twice, once);
  }

  /**
   * The two replay policies agree when every logged entity without a shadow
   * copy was last removed, or does not exist in the real collection.
   */
  lemma PoliciesAgree(entities: map<Key, Doc>, shadow: map<Key, Shadow>, used: set<ModelName>, actions: seq<Action>)
    requires Replayed(entities, shadow, used, actions, DeleteIfRemoved).Done?
    requires forall k :: k !in shadow && LastOp(actions, k).Some? ==> LastOp(actions, k) == Some(Remove) || k !in entities
    ensures Replayed(entities, shadow, used, actions, DeleteIfRemoved) == Replayed(entities, shadow, used, actions, DeleteAlways)
  {
    ReplayDoneIff(entities, shadow, used, actions, DeleteIfRemoved);
    ReplayDoneIff(entities, shadow, used, actions, DeleteAlways);
    ReplayDecidedByLastAction(entities, shadow, used, actions, DeleteIfRemoved);
    ReplayDecidedByLastAction(entities, shadow, used, actions, DeleteAlways);
    SameEverywhere(Replayed(entities, shadow, used, actions, DeleteIfRemoved).entities,
                   Replayed(entities, shadow, used, actions, DeleteAlways).entities);
  }
}
