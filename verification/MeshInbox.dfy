/** The drop-oldest mesh inbox (pi-extension/src/mcp/inbox.ts). */
module MeshInbox {
  import opened Prelude

  datatype Entry<T> = Entry(item: T, size: nat)
  datatype Limits = Limits(maxMessages: nat, maxBytes: nat)

  function Items<T>(entries: seq<Entry<T>>): (r: seq<T>)
    ensures |r| == |entries| && forall i | 0 <= i < |r| :: r[i] == entries[i].item
  {
    if entries == [] then [] else [entries[0].item] + Items(entries[1..])
  }

  function Bytes<T>(entries: seq<Entry<T>>): nat {
    if entries == [] then 0 else entries[0].size + Bytes(entries[1..])
  }

  lemma {:induction false} BytesAppend<T>(a: seq<Entry<T>>, b: seq<Entry<T>>)
    ensures Bytes(a + b) == Bytes(a) + Bytes(b)
  {
    if a == [] {
      assert a + b == b;
    } else {
      BytesAppend(a[1..], b);
      assert (a + b)[1..] == a[1..] + b;
    }
  }

  lemma BytesPush<T>(a: seq<Entry<T>>, e: Entry<T>)
    ensures Bytes(a + [e]) == Bytes(a) + e.size
  {
    BytesAppend(a, [e]);
    assert Bytes([e][1..]) == 0;
  }

  predicate Fits<T>(entries: seq<Entry<T>>, limits: Limits) {
    |entries| <= limits.maxMessages && Bytes(entries) <= limits.maxBytes
  }

  /** What drop-oldest leaves of `all`: a suffix within both limits, or the newest entry alone, with
      no room for one entry more. */
  ghost predicate KeepsNewest<T>(kept: seq<Entry<T>>, all: seq<Entry<T>>, limits: Limits) {
    && Suffix(kept, all)
    && (Fits(kept, limits) || |kept| <= 1)
    && (|kept| < |all| ==> !Fits(Newest(all, |kept| + 1), limits))
  }

  /** No longer suffix would have fitted. */
  lemma LongestSuffix<T>(kept: seq<Entry<T>>, all: seq<Entry<T>>, limits: Limits, n: nat)
    requires KeepsNewest(kept, all, limits) && |kept| < n <= |all|
    ensures !Fits(Newest(all, n), limits)
  {
    var longer, next := Newest(all, n), Newest(all, |kept| + 1);
    assert longer == longer[..n - |next|] + next;
    BytesAppend(longer[..n - |next|], next);
  }

  /** So the retained suffix is determined: it is the longest that fits. */
  lemma KeepsNewestUnique<T>(a: seq<Entry<T>>, b: seq<Entry<T>>, all: seq<Entry<T>>, limits: Limits)
    requires KeepsNewest(a, all, limits) && KeepsNewest(b, all, limits) && a != [] && b != []
    ensures a == b
  {
    if |a| < |b| {
      LongestSuffix(a, all, limits, |b|);
    } else if |b| < |a| {
      LongestSuffix(b, all, limits, |a|);
    }
  }

  lemma SuffixGrows<T>(s: seq<T>, of: seq<T>, x: T)
    requires Suffix(s, of)
    ensures Suffix(s + [x], of + [x])
  {
  }

  lemma SuffixMembers<T>(s: seq<T>, of: seq<T>)
    requires Suffix(s, of) && s != []
    ensures s[|s| - 1] == of[|of| - 1]
    ensures forall i | 0 <= i < |s| :: s[i] in of
  {
  }

  lemma SuffixTransitive<T>(a: seq<T>, b: seq<T>, c: seq<T>)
    requires Suffix(a, b) && Suffix(b, c)
    ensures Suffix(a, c)
  {
    assert Newest(c, |a|) == Newest(Newest(c, |b|), |a|);
  }

  lemma KeepsNewestMembers<T>(kept: seq<Entry<T>>, all: seq<Entry<T>>, limits: Limits)
    requires KeepsNewest(kept, all, limits) && kept != []
    ensures kept[|kept| - 1] == all[|all| - 1]
    ensures forall i | 0 <= i < |kept| :: kept[i] in all
  {
    SuffixMembers(kept, all);
  }

  /** Keeping the newest of what was kept keeps the newest of everything accepted. */
  lemma KeepsNewestOfAll<T>(before: seq<Entry<T>>, accepted: seq<Entry<T>>, e: Entry<T>, kept: seq<Entry<T>>, limits: Limits)
    requires KeepsNewest(before, accepted, limits) && KeepsNewest(kept, before + [e], limits)
    ensures KeepsNewest(kept, accepted + [e], limits)
  {
    hide Bytes, Newest, Fits;
    var all, whole := before + [e], accepted + [e];
    SuffixGrows(before, accepted, e);
    SuffixTransitive(kept, all, whole);
    if |kept| < |whole| {
      if |kept| < |all| {
        NewestOfSuffix(all, whole, |kept| + 1);
      } else {
        NewestGrows(accepted, e, |before| + 1);
        FitsLess(Newest(accepted, |before| + 1), e, limits);
      }
    }
  }

  lemma NewestOfSuffix<T>(s: seq<T>, of: seq<T>, n: nat)
    requires Suffix(s, of) && n <= |s|
    ensures Newest(of, n) == Newest(s, n)
  {
    assert Newest(Newest(of, |s|), n) == Newest(of, n);
  }

  lemma NewestGrows<T>(s: seq<T>, x: T, n: nat)
    requires n <= |s|
    ensures Newest(s + [x], n + 1) == Newest(s, n) + [x]
  {
  }

  lemma FitsLess<T>(s: seq<Entry<T>>, e: Entry<T>, limits: Limits)
    ensures Fits(s + [e], limits) ==> Fits(s, limits)
  {
    BytesPush(s, e);
  }

  class BoundedInbox<T(==)> {
    const sizeOf: T -> nat
    const limits: Limits
    var entries: seq<Entry<T>>
    var bytes: nat
    var droppedCount: nat

    ghost var accepted: seq<Entry<T>>  // entries that passed the size test since the last drain
    ghost var pushed: nat              // every push ever made
    ghost var drained: nat             // messages handed out by drains
    ghost var reported: nat            // drops reported by earlier drains

    ghost predicate Valid() reads this {
      && bytes == Bytes(entries)
      && (forall i | 0 <= i < |entries| :: entries[i].size == sizeOf(entries[i].item) <= limits.maxBytes)
      && KeepsNewest(entries, accepted, limits)
      && (entries == [] <==> accepted == [])
      && pushed == |entries| + drained + droppedCount + reported
    }

    constructor (sizeOf: T -> nat, limits: Limits)
      ensures Valid() && this.sizeOf == sizeOf && this.limits == limits
      ensures entries == accepted == [] && pushed == droppedCount == 0
    {
      this.sizeOf, this.limits := sizeOf, limits;
      entries, bytes, droppedCount := [], 0, 0;
      accepted, pushed, drained, reported := [], 0, 0, 0;
    }

    /** `push`: the oldest overflow goes, never the newest; an oversized message is only counted. */
    method Push(item: T)
      requires Valid()
      modifies this
      ensures Valid() && pushed == old(pushed) + 1 && drained == old(drained) && reported == old(reported)
      ensures sizeOf(item) > limits.maxBytes ==>
                entries == old(entries) && accepted == old(accepted) && droppedCount == old(droppedCount) + 1
      ensures sizeOf(item) <= limits.maxBytes ==>
                && accepted == old(accepted) + [Entry(item, sizeOf(item))]
                && entries != [] && entries[|entries| - 1].item == item
                && KeepsNewest(entries, old(entries) + [Entry(item, sizeOf(item))], limits)
    {
      hide Bytes, Fits, Suffix, Newest, KeepsNewest;
      pushed := pushed + 1;
      var size := sizeOf(item);
      if size > limits.maxBytes {
        droppedCount := droppedCount + 1;
        return;
      }
      accepted := accepted + [Entry(item, size)];
      BytesPush(entries, Entry(item, size));
      entries := entries + [Entry(item, size)];
      bytes := bytes + size;
      ghost var all := entries;
      ShedOverflow();
      KeepsNewestMembers(entries, all, limits);
      KeepsNewestOfAll(old(entries), old(accepted), Entry(item, size), entries, limits);
    }

    /** The shedding loop of `push`. */
    method ShedOverflow()
      requires entries != [] && bytes == Bytes(entries)
      modifies this`entries, this`bytes, this`droppedCount
      ensures entries != [] && bytes == Bytes(entries) && KeepsNewest(entries, old(entries), limits)
      ensures droppedCount == old(droppedCount) + |old(entries)| - |entries|
    {
      ghost var all := entries;
      while |entries| > 1 && (|entries| > limits.maxMessages || bytes > limits.maxBytes)
        invariant entries != [] && Suffix(entries, all) && bytes == Bytes(entries)
        invariant droppedCount == old(droppedCount) + |all| - |entries|
        invariant |entries| < |all| ==> !Fits(Newest(all, |entries| + 1), limits)
        decreases |entries|
      {
        assert Newest(all, |entries|)[1..] == Newest(all, |entries| - 1);
        var shed := entries[0];
        entries := entries[1..];
        bytes := bytes - shed.size;
        droppedCount := droppedCount + 1;
      }
    }

    /** `drain`: everything retained, in arrival order, and the drops since the last drain. */
    method Drain() returns (items: seq<T>, dropped: nat)
      requires Valid()
      modifies this
      ensures Valid() && entries == [] && droppedCount == 0
      ensures items == Items(old(entries)) && dropped == old(droppedCount)
      ensures pushed == old(pushed) && drained == old(drained) + |items| && reported == old(reported) + dropped
    {
      items := Items(entries);
      dropped := droppedCount;
      drained, reported := drained + |items|, reported + dropped;
      entries, bytes, droppedCount := [], 0, 0;
      accepted := [];
    }
  }

  /** Retained messages stay within the byte limit always, and within the message limit exactly
      when that limit admits one message or nothing is retained. */
  lemma RetainedWithinLimits<T>(entries: seq<Entry<T>>, limits: Limits)
    requires Fits(entries, limits) || |entries| <= 1
    requires forall i | 0 <= i < |entries| :: entries[i].size <= limits.maxBytes
    ensures Bytes(entries) <= limits.maxBytes
    ensures |entries| <= limits.maxMessages <==> limits.maxMessages >= 1 || entries == []
  {
    if |entries| == 1 { assert Bytes(entries) == entries[0].size + Bytes(entries[1..]); }
  }
}
