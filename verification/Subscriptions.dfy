/** The relay's bidirectional subscription index (relay/src/subscriptions.rs): two maps of
    sets kept as one subscriber-target relation. */
module Subscriptions {

  type Peer = string
  type Edges = map<Peer, set<Peer>>

  /** The relation a map of sets stands for. */
  ghost predicate Linked(m: Edges, from: Peer, to: Peer) { from in m && to in m[from] }

  ghost predicate NoEmptyEntry(m: Edges) { forall k | k in m :: m[k] != {} }

  /** Both maps represent the same relation, read from either end. */
  ghost predicate Mirrored(subscribersOf: Edges, subscriptionsBy: Edges) {
    forall s: Peer, t: Peer :: Linked(subscribersOf, t, s) <==> Linked(subscriptionsBy, s, t)
  }

  class SubscriptionIndex {
    var subscribersOf: Edges
    var subscriptionsBy: Edges

    ghost predicate Valid() reads this {
      NoEmptyEntry(subscribersOf) && NoEmptyEntry(subscriptionsBy) && Mirrored(subscribersOf, subscriptionsBy)
    }

    /** Who watches what. */
    ghost predicate Watches(subscriber: Peer, target: Peer) reads this {
      Linked(subscriptionsBy, subscriber, target)
    }

    constructor ()
      ensures Valid() && forall s, t :: !Watches(s, t)
    {
      subscribersOf, subscriptionsBy := map[], map[];
    }

    /** `remove_reverse_edge`. */
    method RemoveReverseEdge(target: Peer, subscriber: Peer)
      requires NoEmptyEntry(subscribersOf)
      modifies this`subscribersOf
      ensures NoEmptyEntry(subscribersOf)
      ensures forall t, s :: Linked(subscribersOf, t, s)
                <==> Linked(old(subscribersOf), t, s) && !(t == target && s == subscriber)
    {
      var shouldRemove := false;
      if target in subscribersOf {
        subscribersOf := subscribersOf[target := subscribersOf[target] - {subscriber}];
        shouldRemove := subscribersOf[target] == {};
        assert forall s :: s in subscribersOf[target] <==> s in old(subscribersOf)[target] && s != subscriber;
      }
      if shouldRemove { subscribersOf := subscribersOf - {target}; }
    }

    /** `remove_all`. */
    method RemoveAll(subscriber: Peer)
      requires Valid()
      modifies this
      ensures Valid()
      ensures forall s, t :: Watches(s, t) <==> old(Watches(s, t)) && s != subscriber
    {
      if subscriber in subscriptionsBy {
        var targets := subscriptionsBy[subscriber];
        subscriptionsBy := subscriptionsBy - {subscriber};
        var rest := targets;
        while rest != {}
          invariant rest <= targets && NoEmptyEntry(subscribersOf)
          invariant subscriptionsBy == old(subscriptionsBy) - {subscriber}
          invariant forall t, s :: Linked(subscribersOf, t, s)
                      <==> Linked(old(subscribersOf), t, s) && !(s == subscriber && t in targets - rest)
          decreases rest
        {
          var target :| target in rest;
          RemoveReverseEdge(target, subscriber);
          rest := rest - {target};
        }
      }
    }

    /** `replace`: the subscriber watches exactly the listed targets afterwards. */
    method Replace(subscriber: Peer, targets: seq<Peer>)
      requires Valid()
      modifies this
      ensures Valid()
      ensures forall s, t :: Watches(s, t) <==> if s == subscriber then t in targets else old(Watches(s, t))
    {
      RemoveAll(subscriber);
      var newSet := set t | t in targets;
      var rest := newSet;
      ghost var cleared, others := subscribersOf, subscriptionsBy;
      assert forall s, t :: Linked(others, s, t) <==> old(Watches(s, t)) && s != subscriber by {
        assert forall s, t :: Linked(others, s, t) <==> Watches(s, t);
      }
      while rest != {}
        invariant rest <= newSet && NoEmptyEntry(subscribersOf) && NoEmptyEntry(subscriptionsBy)
        invariant subscriptionsBy == others
        invariant forall t, s :: Linked(subscribersOf, t, s)
                    <==> Linked(cleared, t, s) || (s == subscriber && t in newSet && t !in rest)
        decreases rest
      {
        var target :| target in rest;
        var current := if target in subscribersOf then subscribersOf[target] else {};
        ghost var before := subscribersOf;
        subscribersOf := subscribersOf[target := current + {subscriber}];
        assert forall t, s :: Linked(subscribersOf, t, s)
                 <==> Linked(before, t, s) || (s == subscriber && t == target);
        rest := rest - {target};
      }
      if newSet != {} { subscriptionsBy := subscriptionsBy[subscriber := newSet]; }
      assert forall s, t :: Linked(cleared, t, s) <==> Linked(others, s, t);
      assert forall s, t :: Linked(subscriptionsBy, s, t)
               <==> if s == subscriber then t in newSet else Linked(others, s, t);
    }

    /** `remove`: only the listed targets go, duplicates and unknown ones included. */
    method Remove(subscriber: Peer, targets: seq<Peer>)
      requires Valid()
      modifies this
      ensures Valid()
      ensures forall s, t :: Watches(s, t) <==> old(Watches(s, t)) && !(s == subscriber && t in targets)
    {
      for i := 0 to |targets|
        invariant NoEmptyEntry(subscribersOf)
        invariant forall k | k in subscriptionsBy :: subscriptionsBy[k] == {} ==> k == subscriber
        invariant subscriptionsBy.Keys == old(subscriptionsBy).Keys
        invariant forall s, t :: Watches(s, t) <==> old(Watches(s, t)) && !(s == subscriber && t in targets[..i])
        invariant Mirrored(subscribersOf, subscriptionsBy)
      {
        var target := targets[i];
        RemoveReverseEdge(target, subscriber);
        if subscriber in subscriptionsBy {
          subscriptionsBy := subscriptionsBy[subscriber := subscriptionsBy[subscriber] - {target}];
        }
        assert targets[..i + 1] == targets[..i] + [target];
      }
      assert targets[..|targets|] == targets;
      if subscriber in subscriptionsBy && subscriptionsBy[subscriber] == {} {
        subscriptionsBy := subscriptionsBy - {subscriber};
      }
    }

    /** `subscribers_of`: who is told about `target`. */
    method SubscribersOf(target: Peer) returns (who: set<Peer>)
      requires Valid()
      ensures forall s :: s in who <==> Watches(s, target)
    {
      who := if target in subscribersOf then subscribersOf[target] else {};
      assert forall s :: Linked(subscribersOf, target, s) <==> Watches(s, target);
    }
  }

  /** The two maps determine each other: no hidden entry can differ. */
  lemma MirrorIsUnique(subscribersOf: Edges, a: Edges, b: Edges)
    requires NoEmptyEntry(a) && NoEmptyEntry(b)
    requires Mirrored(subscribersOf, a) && Mirrored(subscribersOf, b)
    ensures a == b
  {
    forall k ensures k in a <==> k in b {
      if k in a { var t :| t in a[k]; assert Linked(a, k, t) && Linked(subscribersOf, t, k); assert Linked(b, k, t); }
      if k in b { var t :| t in b[k]; assert Linked(b, k, t) && Linked(subscribersOf, t, k); assert Linked(a, k, t); }
    }
    forall k | k in a ensures a[k] == b[k] {
      forall t ensures t in a[k] <==> t in b[k] {
        assert Linked(a, k, t) <==> Linked(subscribersOf, t, k);
        assert Linked(b, k, t) <==> Linked(subscribersOf, t, k);
      }
    }
  }
}
