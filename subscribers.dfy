/**
 * Callback sets as a JavaScript `Set` keeps them: insertion order, no duplicates.
 * `add` of a present callback changes nothing, and `delete` removes exactly that
 * callback. The voice service and the avatar bridge both keep their subscribers
 * this way.
 */
module Subscribers {

  /** Identifies a registered callback (JavaScript compares function objects by identity). */
  type CallbackId = nat

  /** No callback appears twice. */
  predicate NoDuplicates(s: seq<CallbackId>) {
    forall i, j :: 0 <= i < j < |s| ==> s[i] != s[j]
  }

  /** `Set.add`: a callback already present keeps its place. */
  function AddCallback(s: seq<CallbackId>, cb: CallbackId): (r: seq<CallbackId>)
    ensures cb in r
    ensures forall x :: x in r <==> x in s || x == cb
  {
    if cb in s then s else s + [cb]
  }

  /** `Set.delete`: every occurrence of the callback goes, the others keep their order. */
  function RemoveCallback(s: seq<CallbackId>, cb: CallbackId): (r: seq<CallbackId>)
    ensures forall x :: x in r <==> x in s && x != cb
    ensures |r| <= |s|
  {
    if s == [] then []
    else (if s[0] == cb then [] else [s[0]]) + RemoveCallback(s[1..], cb)
  }

  lemma {:induction false} RemoveAbsent(s: seq<CallbackId>, cb: CallbackId)
    requires cb !in s
    ensures RemoveCallback(s, cb) == s
  {
    if s != [] {
      RemoveAbsent(s[1..], cb);
      assert s == [s[0]] + s[1..];
    }
  }

  lemma {:induction false} RemoveAppend(s: seq<CallbackId>, t: seq<CallbackId>, cb: CallbackId)
    ensures RemoveCallback(s + t, cb) == RemoveCallback(s, cb) + RemoveCallback(t, cb)
  {
    if s == [] {
      assert s + t == t;
    } else {
      assert (s + t)[1..] == s[1..] + t;
      RemoveAppend(s[1..], t, cb);
    }
  }

  /**
   * The unsubscribe function returned by `onStateChange`/`onWakeWord` undoes the
   * subscription: it removes that callback and only it, so a callback that was not
   * subscribed before leaves the set as it was.
   */
  lemma UnsubscribeUndoesSubscribe(s: seq<CallbackId>, cb: CallbackId)
    ensures RemoveCallback(AddCallback(s, cb), cb) == RemoveCallback(s, cb)
    ensures cb !in s ==> RemoveCallback(AddCallback(s, cb), cb) == s
  {
    if cb !in s {
      RemoveAppend(s, [cb], cb);
      assert RemoveCallback([cb], cb) == [];
      RemoveAbsent(s, cb);
    }
  }

  /** Adding and removing keep a set free of duplicates. */
  lemma {:induction false} SubscriptionsStayDistinct(s: seq<CallbackId>, cb: CallbackId)
    requires NoDuplicates(s)
    ensures NoDuplicates(AddCallback(s, cb))
    ensures NoDuplicates(RemoveCallback(s, cb))
    decreases |s|
  {
    if s != [] {
      SubscriptionsStayDistinct(s[1..], cb);
      var r := RemoveCallback(s, cb);
      var t := RemoveCallback(s[1..], cb);
      if s[0] != cb {
        assert s[0] !in s[1..];
        assert s[0] !in t;
        assert r == [s[0]] + t;
      }
    }
  }
}
