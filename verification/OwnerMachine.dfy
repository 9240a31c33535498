/** One owner's life in the registry of pi-extension/src/extension/owner_multiplexer.ts: a machine of its own,
    with no maps, no order and no other owners. The registry is proved to be such machines side by side. */
module OwnerMachine {
  import opened Prelude
  import opened OfflineBuffer
  import opened OwnerMultiplexer

  /** An attached owner: what it missed since it went offline, and what its channel accepted. */
  datatype Presence = Presence(channel: Channel, offline: bool, late: bool, missed: seq<Happening>,
                               sent: seq<Message>, router: int)

  /** An owner: its presence if attached, its remembered keys, the draining channels it left, and its gate. */
  datatype Owner = Owner(here: Option<Presence>, keys: seq<string>, left: set<Channel>, gate: Option<Gate>)

  /** What an owner's life takes from outside: the number of the next channel, and the settled channels. */
  datatype World = World(next: nat, settled: set<Channel>)

  function WorldOf(s: Registry): World { World(s.nextChannelId, s.settled) }

  function OwnerOf(s: Registry, p: PeerId): Owner {
    Owner(
      if p !in s.channels then None
      else
        var c := s.channels[p];
        Some(Presence(c, p in s.offline, p in s.late, if p in s.offline && p in s.since then s.since[p] else [],
                      if c in s.sent then s.sent[c] else [], if c in s.routers then s.routers[c] else 0)),
      KeysOf(s.keys, p), LeftBy(s.detached, p), GateOf(s.gates, p))
  }

  function LeftBy(detached: map<PeerId, set<Channel>>, p: PeerId): set<Channel> { if p in detached then detached[p] else {} }

  function GateOf(gates: map<PeerId, Gate>, p: PeerId): Option<Gate> { if p in gates then Some(gates[p]) else None }

  // ----- The machine ----------------------------------------------------------------------

  /** Keys remembered one after another. */
  function RememberedAll(keys: seq<string>, ms: seq<Message>): seq<string> {
    if ms == [] then keys else RememberFrame(RememberedAll(keys, ms[..|ms| - 1]), ms[|ms| - 1])
  }

  /** Detached: the keys go with the channel, and a draining channel is waited for behind the gate there was. */
  function Leaves(o: Owner): Owner {
    if o.here.None? then o
    else
      var c := o.here.value.channel;
      Owner(None, [], if c.drains then o.left + {c} else o.left, if c.drains then Some(Gate(c, o.gate)) else o.gate)
  }

  /** Cut while saying farewell: the channel is waited for twice. */
  function CutOff(o: Owner): Owner {
    if o.here.None? || !o.here.value.channel.drains then Leaves(o)
    else Leaves(o).(gate := Some(Gate(o.here.value.channel, Leaves(o).gate)))
  }

  function Hears(o: Owner, m: Message, outcome: Outcome): Owner {
    if o.here.None? then o
    else if o.here.value.offline then o.(here := Some(o.here.value.(missed := o.here.value.missed + [Sent(m)])))
    else match outcome
      case Delivered => o.(here := Some(o.here.value.(sent := o.here.value.sent + [m])))
      case Threw => o
      case Disconnected => Leaves(o)
  }

  /** An offline owner is replayed what it kept; a disconnect ends that, and leaves the key of its frame. */
  function Returns(o: Owner, outcome: nat -> Outcome): Owner {
    if o.here.None? || !o.here.value.offline then o
    else
      var frames := Kept(o.here.value.missed);
      var cut := FirstCut(frames, outcome, 0);
      if cut < |frames| then Leaves(o).(keys := RememberFrame([], frames[cut]))
      else
        var arrived := Arriving(frames, outcome, 0, cut);
        o.(here := Some(o.here.value.(offline := false, missed := [], sent := o.here.value.sent + arrived)),
           keys := RememberedAll(o.keys, arrived))
  }

  /** What a step of the registry is to the owner `p`. */
  function OwnerAfter(o: Owner, p: PeerId, step: Step, w: World): Owner {
    match step
    case Attach(q, drains, turnActive, router) =>
      if q != p then o
      else Leaves(o).(here := Some(Presence(Channel(w.next, drains), false, turnActive, [], [], router)))
    case Detach(q, cut) => if q != p then o else if cut then CutOff(o) else Leaves(o)
    case DetachAll(cuts) => (if p in cuts then CutOff(o) else Leaves(o)).(keys := [])
    case MarkOffline(q) =>
      if q != p || o.here.None? || o.here.value.offline then o
      else o.(here := Some(o.here.value.(offline := true, late := false, missed := [])))
    case MarkOnline(q, outcome) => if q == p then Returns(o, outcome) else o
    case SessionSync(c) =>
      if o.here.None? || o.here.value.channel != c || !o.here.value.offline then o
      else o.(here := Some(o.here.value.(offline := false, missed := [])))
    case Broadcast(m, outcomeFor) => Hears(o, m, outcomeFor(p))
    case CompleteTurn =>
      if o.here.None? || !o.here.value.offline then o
      else o.(here := Some(o.here.value.(missed := o.here.value.missed + [TurnEnd])))
    case TakeLateTargets => if o.here.None? then o else o.(here := Some(o.here.value.(late := false)))
    case Settles(_) => o
    case GateResolves(q, g) =>
      if q == p && o.gate == Some(g) && GateSettled(g, w.settled) then o.(gate := None) else o
  }

  function WorldAfter(w: World, step: Step): World {
    match step
    case Attach(_, _, _, _) => w.(next := w.next + 1)
    case Settles(c) => w.(settled := w.settled + {c})
    case _ => w
  }

  function OwnerRun(o: Owner, p: PeerId, steps: seq<Step>, w: World): Owner
    decreases |steps|
  {
    if steps == [] then o else OwnerRun(OwnerAfter(o, p, steps[0], w), p, steps[1..], WorldAfter(w, steps[0]))
  }

  // ----- Each operation, seen from one owner --------------------------------------------------

  lemma ChannelsApart(s: Registry, p: PeerId, q: PeerId)
    requires Valid(s) && p in s.channels && q in s.channels && p != q
    ensures s.channels[p] != s.channels[q]
  {
    hide Listed, Aged, Present, Hinted, Bounded, Gated, Tracked, Accepting, Older;
  }

  /** The registries agree on everything about `p`. */
  ghost predicate SameFor(s: Registry, t: Registry, p: PeerId) {
    && KeysOf(s.keys, p) == KeysOf(t.keys, p)
    && LeftBy(s.detached, p) == LeftBy(t.detached, p) && GateOf(s.gates, p) == GateOf(t.gates, p)
    && (p in s.channels <==> p in t.channels)
    && (p in s.channels ==>
          var c := s.channels[p];
          && t.channels[p] == c && (p in s.offline <==> p in t.offline) && (p in s.late <==> p in t.late)
          && (p in s.since <==> p in t.since) && (p in s.since ==> s.since[p] == t.since[p])
          && (c in s.sent <==> c in t.sent) && (c in s.sent ==> s.sent[c] == t.sent[c])
          && (c in s.routers <==> c in t.routers) && (c in s.routers ==> s.routers[c] == t.routers[c]))
  }

  lemma SameOwner(s: Registry, t: Registry, p: PeerId)
    requires SameFor(s, t, p)
    ensures OwnerOf(s, p) == OwnerOf(t, p)
  {
  }

  lemma DetachedOwner(s: Registry, q: PeerId, p: PeerId)
    requires Valid(s)
    ensures OwnerOf(Detached(s, q), p) == if q == p then Leaves(OwnerOf(s, p)) else OwnerOf(s, p)
  {
    if q == p {
      LeavesHere(s, p);
    } else {
      hide Valid, OwnerOf, SameFor, Detached;
      DetachedElsewhere(s, q, p);
      SameOwner(s, Detached(s, q), p);
    }
  }

  lemma LeavesHere(s: Registry, p: PeerId)
    ensures OwnerOf(Detached(s, p), p) == Leaves(OwnerOf(s, p))
  {
    hide Drop, HintAfter;
  }

  lemma DetachedElsewhere(s: Registry, q: PeerId, p: PeerId)
    requires Valid(s) && q != p
    ensures SameFor(s, Detached(s, q), p)
  {
    hide Valid, Drop, HintAfter;
    if q in s.channels && p in s.channels { ChannelsApart(s, p, q); }
  }

  lemma FarewellOwner(s: Registry, q: PeerId, cut: bool, p: PeerId)
    requires Valid(s)
    ensures OwnerOf(Farewell(s, q, cut), p) == OwnerAfter(OwnerOf(s, p), p, Detach(q, cut), WorldOf(s))
  {
    hide Valid, Detached, OwnerOf, SameFor;
    DetachedOwner(s, q, p);
    if q == p {
      FarewellHere(s, p, cut);
    } else {
      FarewellElsewhere(s, q, cut, p);
      SameOwner(Detached(s, q), Farewell(s, q, cut), p);
    }
  }

  lemma FarewellElsewhere(s: Registry, q: PeerId, cut: bool, p: PeerId)
    requires q != p
    ensures SameFor(Detached(s, q), Farewell(s, q, cut), p)
  {
    hide Detached;
  }

  lemma FarewellHere(s: Registry, p: PeerId, cut: bool)
    requires OwnerOf(Detached(s, p), p) == Leaves(OwnerOf(s, p))
    ensures OwnerOf(Farewell(s, p, cut), p) == if cut then CutOff(OwnerOf(s, p)) else Leaves(OwnerOf(s, p))
  {
    hide Detached;
    var d, t := Detached(s, p), Farewell(s, p, cut);
    if cut && p in s.channels && s.channels[p].drains {
      assert t == d.(gates := GatesAfter(d.gates, p, s.channels[p]), detached := DetachedAfter(d.detached, p, s.channels[p]));
      assert OwnerOf(t, p).here == OwnerOf(d, p).here && OwnerOf(t, p).keys == OwnerOf(d, p).keys;
    }
  }

  lemma {:induction false} DetachedEachOwner(s: Registry, ps: seq<PeerId>, cuts: set<PeerId>, p: PeerId)
    requires Valid(s) && Distinct(ps)
    ensures OwnerOf(DetachedEach(s, ps, cuts), p)
            == if p !in ps then OwnerOf(s, p) else if p in cuts then CutOff(OwnerOf(s, p)) else Leaves(OwnerOf(s, p))
    decreases |ps|
  {
    hide Valid, Farewell, OwnerOf, Leaves, CutOff;
    if ps != [] {
      FarewellOwner(s, ps[0], ps[0] in cuts, p);
      FarewellValid(s, ps[0], ps[0] in cuts);
      DetachedEachOwner(Farewell(s, ps[0], ps[0] in cuts), ps[1..], cuts, p);
    }
  }

  lemma InstalledOwner(s: Registry, q: PeerId, c: Channel, turnActive: bool, router: int, p: PeerId)
    requires Valid(s) && q !in s.channels && c !in s.peers
    ensures OwnerOf(Installed(s, q, c, turnActive, router), p)
            == if q == p then OwnerOf(s, p).(here := Some(Presence(c, false, turnActive, [], [], router))) else OwnerOf(s, p)
  {
    hide Listed, Aged, Hinted, Bounded, Gated, Tracked, Older, Short;
  }

  lemma AttachedOwner(s: Registry, q: PeerId, drains: bool, turnActive: bool, router: int, p: PeerId)
    requires Valid(s)
    ensures OwnerOf(Attached(s, q, drains, turnActive, router), p)
            == OwnerAfter(OwnerOf(s, p), p, Attach(q, drains, turnActive, router), WorldOf(s))
  {
    hide Valid, Detached, Installed;
    var d := Detached(s, q);
    DetachedValid(s, q);
    DetachedOwner(s, q, p);
    FreshChannel(s, q, drains);
    FreshChannel(d, q, drains);
    DetachedChannels(s, q);
    InstalledOwner(d, q, Channel(d.nextChannelId, drains), turnActive, router, p);
  }

  lemma ResumedOwner(s: Registry, q: PeerId, p: PeerId)
    ensures var o, t := OwnerOf(s, p), OwnerOf(Resumed(s, q), p);
            t == if q != p || o.here.None? || !o.here.value.offline then o
                 else o.(here := Some(o.here.value.(offline := false, missed := [])))
  {
  }

  lemma MarkedOfflineOwner(s: Registry, q: PeerId, p: PeerId)
    ensures OwnerOf(MarkedOffline(s, q), p) == OwnerAfter(OwnerOf(s, p), p, MarkOffline(q), WorldOf(s))
  {
    hide OwnerOf, MarkedOffline, SameFor;
    if q == p {
      NowOffline(s, p);
    } else {
      OfflineElsewhere(s, q, p);
      SameOwner(s, MarkedOffline(s, q), p);
    }
  }

  lemma OfflineElsewhere(s: Registry, q: PeerId, p: PeerId)
    requires q != p
    ensures SameFor(s, MarkedOffline(s, q), p)
  {
    hide MarkedOffline, KeysOf;
    SuspensionKeeps(s, q);
    SuspensionElsewhere(s, q, p);
  }

  lemma SuspensionKeeps(s: Registry, q: PeerId)
    ensures var t := MarkedOffline(s, q);
            && t.channels == s.channels && t.sent == s.sent && t.routers == s.routers && t.keys == s.keys
            && t.gates == s.gates && t.detached == s.detached
  {
  }

  lemma SuspensionElsewhere(s: Registry, q: PeerId, p: PeerId)
    requires q != p
    ensures var t := MarkedOffline(s, q);
            && (p in s.offline <==> p in t.offline) && (p in s.late <==> p in t.late)
            && (p in s.since <==> p in t.since) && (p in s.since ==> s.since[p] == t.since[p])
  {
  }

  lemma NowOffline(s: Registry, p: PeerId)
    ensures var o := OwnerOf(s, p);
            OwnerOf(MarkedOffline(s, p), p)
            == if o.here.None? || o.here.value.offline then o
               else o.(here := Some(o.here.value.(offline := true, late := false, missed := [])))
  {
  }

  lemma {:induction false} FlushKeys(frames: seq<Message>, outcome: nat -> Outcome, from: nat, keys: seq<string>)
    requires from <= |frames|
    ensures var f, cut := FlushOf(frames, outcome, from, keys), FirstCut(frames, outcome, from);
            f.keys == if cut < |frames| then RememberFrame([], frames[cut])
                      else RememberedAll(keys, Arriving(frames, outcome, from, cut))
    decreases |frames| - from
  {
    if from < |frames| && outcome(from) != Disconnected {
      hide RememberFrame, RememberedAll;
      var next := if outcome(from) == Threw then keys else RememberFrame(keys, frames[from]);
      FlushKeys(frames, outcome, from + 1, next);
      var rest := Arriving(frames, outcome, from + 1, FirstCut(frames, outcome, from + 1));
      RememberedFirst(keys, frames[from], rest);
      assert [] + rest == rest;
    }
  }

  lemma {:induction false} RememberedFirst(keys: seq<string>, m: Message, ms: seq<Message>)
    ensures RememberedAll(keys, [m] + ms) == RememberedAll(RememberFrame(keys, m), ms)
  {
    hide RememberFrame;
    var all := [m] + ms;
    if ms == [] {
      assert all[..|all| - 1] == [] && all[|all| - 1] == m;
      assert RememberedAll(keys, []) == keys;
    } else {
      assert all[..|all| - 1] == [m] + ms[..|ms| - 1] && all[|all| - 1] == ms[|ms| - 1];
      RememberedFirst(keys, m, ms[..|ms| - 1]);
    }
  }

  lemma FlushedElsewhere(s: Registry, q: PeerId, f: Flush, p: PeerId)
    requires Valid(s) && q in s.channels && p != q
    ensures OwnerOf(Flushed(s, q, s.channels[q], f), p) == OwnerOf(s, p)
  {
    hide Valid, Detached, OwnerOf, SameFor, Flushed;
    var t := Flushed(s, q, s.channels[q], f);
    DetachedOwner(s, q, p);
    if f.disconnected {
      CutElsewhere(s, q, f, p);
      SameOwner(Detached(s, q), t, p);
    } else {
      if p in s.channels { ChannelsApart(s, p, q); }
      ReplayedElsewhere(s, q, f, p);
      SameOwner(s, t, p);
    }
  }

  lemma CutElsewhere(s: Registry, q: PeerId, f: Flush, p: PeerId)
    requires q in s.channels && p != q && f.disconnected
    ensures SameFor(Detached(s, q), Flushed(s, q, s.channels[q], f), p)
  {
    hide Detached;
  }

  lemma ReplayedElsewhere(s: Registry, q: PeerId, f: Flush, p: PeerId)
    requires q in s.channels && p != q && !f.disconnected && (p in s.channels ==> s.channels[p] != s.channels[q])
    ensures SameFor(s, Flushed(s, q, s.channels[q], f), p)
  {
  }

  lemma FlushedHere(s: Registry, p: PeerId, f: Flush)
    requires Valid(s) && p in s.channels && p in s.offline && (!f.disconnected && f.keys == [] ==> p !in s.keys)
    ensures var o := OwnerOf(s, p);
            OwnerOf(Flushed(s, p, s.channels[p], f), p)
            == if f.disconnected then Leaves(o).(keys := f.keys)
               else o.(here := Some(o.here.value.(offline := false, missed := [], sent := o.here.value.sent + f.delivered)), keys := f.keys)
  {
    hide Valid, Detached;
    ValidSent(s, p);
    DetachedOwner(s, p, p);
  }

  lemma MarkedOnlineOwner(s: Registry, q: PeerId, outcome: nat -> Outcome, p: PeerId)
    requires Valid(s)
    ensures OwnerOf(MarkedOnline(s, q, outcome), p) == OwnerAfter(OwnerOf(s, p), p, MarkOnline(q, outcome), WorldOf(s))
  {
    hide Valid, Flushed, FlushOf, Kept, Contents, FirstCut, Arriving, Resumed;
    if q in s.offline {
      ContentsAreKept(s, q);
      var frames, keys := Kept(s.since[q]), KeysOf(s.keys, q);
      var f := FlushOf(frames, outcome, 0, keys);
      if q != p {
        FlushedElsewhere(s, q, f, p);
      } else {
        ValidKeysSome(s, p);
        if keys != [] { FlushKeepsSomeKey(frames, outcome, 0, keys); }
        FlushDelivers(frames, outcome, 0, keys);
        FlushKeys(frames, outcome, 0, keys);
        FlushedHere(s, p, f);
      }
    }
  }

  lemma SyncedOwner(s: Registry, c: Channel, p: PeerId)
    requires Valid(s)
    ensures OwnerOf(Synced(s, c), p) == OwnerAfter(OwnerOf(s, p), p, SessionSync(c), WorldOf(s))
  {
    hide Valid, Resumed;
    if p in s.channels { ValidSent(s, p); }
    if c in s.peers { ResumedOwner(s, s.peers[c], p); }
  }

  lemma BroadcastToOwner(s: Registry, m: Message, outcome: PeerId -> Outcome, q: PeerId, p: PeerId)
    requires Valid(s)
    ensures OwnerOf(BroadcastTo(s, m, outcome, q), p) == if q == p then Hears(OwnerOf(s, p), m, outcome(p)) else OwnerOf(s, p)
  {
    hide Valid, Detached, Meaning, OwnerOf, SameFor, Hears;
    DetachedOwner(s, q, p);
    if q in s.channels {
      if p in s.channels && p != q { ChannelsApart(s, p, q); }
      if q == p {
        HearsHere(s, m, outcome, p);
      } else if q in s.offline || outcome(q) != Disconnected {
        HeardElsewhere(s, m, outcome, q, p);
        SameOwner(s, BroadcastTo(s, m, outcome, q), p);
      }
    } else if q == p {
      NobodyHears(s, m, outcome, p);
    }
  }

  lemma HeardElsewhere(s: Registry, m: Message, outcome: PeerId -> Outcome, q: PeerId, p: PeerId)
    requires q in s.channels && p != q && (p in s.channels ==> s.channels[p] != s.channels[q])
    requires q in s.offline || outcome(q) != Disconnected
    ensures SameFor(s, BroadcastTo(s, m, outcome, q), p)
  {
    hide BroadcastTo, KeysOf;
    HeardKeeps(s, m, outcome, q);
    HeardSent(s, m, outcome, q, p);
    HeardSince(s, m, outcome, q, p);
  }

  lemma HeardKeeps(s: Registry, m: Message, outcome: PeerId -> Outcome, q: PeerId)
    requires q in s.offline || outcome(q) != Disconnected
    ensures var t := BroadcastTo(s, m, outcome, q);
            && t.channels == s.channels && t.offline == s.offline && t.late == s.late && t.keys == s.keys && t.routers == s.routers
            && t.gates == s.gates && t.detached == s.detached
  {
    hide Meaning, Accepted;
  }

  lemma HeardSent(s: Registry, m: Message, outcome: PeerId -> Outcome, q: PeerId, p: PeerId)
    requires q in s.channels && p != q && (p in s.channels ==> s.channels[p] != s.channels[q])
    requires q in s.offline || outcome(q) != Disconnected
    ensures var t := BroadcastTo(s, m, outcome, q);
            p in s.channels ==> var c := s.channels[p];
              (c in s.sent <==> c in t.sent) && (c in s.sent ==> s.sent[c] == t.sent[c])
  {
    hide Meaning;
  }

  lemma HeardSince(s: Registry, m: Message, outcome: PeerId -> Outcome, q: PeerId, p: PeerId)
    requires q in s.channels && p != q && (q in s.offline || outcome(q) != Disconnected)
    ensures var t := BroadcastTo(s, m, outcome, q);
            (p in s.since <==> p in t.since) && (p in s.since ==> s.since[p] == t.since[p])
  {
    hide Meaning, Accepted;
  }

  lemma NobodyHears(s: Registry, m: Message, outcome: PeerId -> Outcome, p: PeerId)
    requires p !in s.channels
    ensures Hears(OwnerOf(s, p), m, outcome(p)) == OwnerOf(s, p)
  {
  }

  lemma HearsHere(s: Registry, m: Message, outcome: PeerId -> Outcome, p: PeerId)
    requires Valid(s) && p in s.channels
    ensures OwnerOf(BroadcastTo(s, m, outcome, p), p) == Hears(OwnerOf(s, p), m, outcome(p))
  {
    hide Valid, Detached, Meaning;
    ValidSent(s, p);
    if p in s.offline { ValidTracks(s, p); }
    DetachedOwner(s, p, p);
  }

  lemma {:induction false} BroadcastOwner(s: Registry, m: Message, outcome: PeerId -> Outcome, ps: seq<PeerId>, p: PeerId)
    requires Valid(s) && Distinct(ps)
    ensures OwnerOf(BroadcastOver(s, m, outcome, ps), p) == if p in ps then Hears(OwnerOf(s, p), m, outcome(p)) else OwnerOf(s, p)
    decreases |ps|
  {
    hide Valid, BroadcastTo, OwnerOf, Hears;
    if ps != [] {
      BroadcastToOwner(s, m, outcome, ps[0], p);
      BroadcastToValid(s, m, outcome, ps[0]);
      BroadcastOwner(BroadcastTo(s, m, outcome, ps[0]), m, outcome, ps[1..], p);
    }
  }

  lemma TurnCompletedOwner(s: Registry, p: PeerId)
    requires Valid(s)
    ensures OwnerOf(TurnCompleted(s), p) == OwnerAfter(OwnerOf(s, p), p, CompleteTurn, WorldOf(s))
  {
    hide Valid, Meaning;
    if p in s.offline { ValidTracks(s, p); }
  }

  lemma DetachAllOwner(s: Registry, cuts: set<PeerId>, p: PeerId)
    requires Valid(s)
    ensures OwnerOf(Next(s, DetachAll(cuts)), p) == OwnerAfter(OwnerOf(s, p), p, DetachAll(cuts), WorldOf(s))
  {
    hide Valid, DetachedEach, OwnerOf, Cleared;
    ValidListed(s);
    DetachedEachOwner(s, s.order, cuts, p);
    DetachedEachChannels(s, s.order, cuts);
    ClearedOwner(DetachedEach(s, s.order, cuts), p);
    if p !in s.channels { NobodyLeaves(s, p); }
  }

  lemma ClearedOwner(s: Registry, p: PeerId)
    requires p !in s.channels
    ensures OwnerOf(Cleared(s), p) == OwnerOf(s, p).(keys := [])
  {
  }

  lemma NobodyLeaves(s: Registry, p: PeerId)
    requires p !in s.channels
    ensures Leaves(OwnerOf(s, p)) == OwnerOf(s, p) == CutOff(OwnerOf(s, p))
  {
  }

  /** The registry is its owners' machines side by side: what a step does to an owner depends on that owner
      alone, and is what its machine does. */
  lemma OwnerStep(s: Registry, step: Step, p: PeerId)
    requires Valid(s)
    ensures OwnerOf(Next(s, step), p) == OwnerAfter(OwnerOf(s, p), p, step, WorldOf(s))
  {
    hide Valid, Attached, Farewell, DetachedEach, Cleared, MarkedOffline, MarkedOnline, BroadcastOver, TurnCompleted, Synced,
         GateCleared, OwnerAfter, OwnerOf, WorldOf;
    match step
    case Attach(q, drains, turnActive, router) => AttachedOwner(s, q, drains, turnActive, router, p);
    case Detach(q, cut) => FarewellOwner(s, q, cut, p);
    case DetachAll(cuts) => DetachAllOwner(s, cuts, p);
    case MarkOffline(q) => MarkedOfflineOwner(s, q, p);
    case MarkOnline(q, outcome) => MarkedOnlineOwner(s, q, outcome, p);
    case SessionSync(c) => SyncedOwner(s, c, p);
    case Broadcast(m, outcome) => BroadcastStepOwner(s, m, outcome, p);
    case CompleteTurn => TurnCompletedOwner(s, p);
    case TakeLateTargets => LateTakenOwner(s, p);
    case Settles(c) => SettlesOwner(s, c, p);
    case GateResolves(q, g) => GateClearedOwner(s, q, g, p);
  }

  lemma LateTakenOwner(s: Registry, p: PeerId)
    ensures OwnerOf(s.(late := {}), p) == OwnerAfter(OwnerOf(s, p), p, TakeLateTargets, WorldOf(s))
  {
  }

  lemma SettlesOwner(s: Registry, c: Channel, p: PeerId)
    ensures OwnerOf(s.(settled := s.settled + {c}), p) == OwnerAfter(OwnerOf(s, p), p, Settles(c), WorldOf(s))
  {
  }

  lemma GateClearedOwner(s: Registry, q: PeerId, g: Gate, p: PeerId)
    ensures OwnerOf(GateCleared(s, q, g), p) == OwnerAfter(OwnerOf(s, p), p, GateResolves(q, g), WorldOf(s))
  {
    if q == p {
      GateClearedHere(s, p, g);
    } else {
      hide OwnerOf, SameFor, GateCleared, GateSettled;
      GateClearedElsewhere(s, q, g, p);
      SameOwner(s, GateCleared(s, q, g), p);
    }
  }

  lemma GateClearedElsewhere(s: Registry, q: PeerId, g: Gate, p: PeerId)
    requires q != p
    ensures SameFor(s, GateCleared(s, q, g), p)
  {
    hide GateSettled;
  }

  lemma GateClearedHere(s: Registry, p: PeerId, g: Gate)
    ensures var o := OwnerOf(s, p);
            OwnerOf(GateCleared(s, p, g), p) == if o.gate == Some(g) && GateSettled(g, s.settled) then o.(gate := None) else o
  {
    hide GateSettled;
    if p in s.gates { assert p !in s.gates - {p}; }
  }

  lemma BroadcastStepOwner(s: Registry, m: Message, outcome: PeerId -> Outcome, p: PeerId)
    requires Valid(s)
    ensures OwnerOf(BroadcastOver(s, m, outcome, s.order), p) == OwnerAfter(OwnerOf(s, p), p, Broadcast(m, outcome), WorldOf(s))
  {
    hide Valid, BroadcastOver, OwnerOf, Hears;
    ValidListed(s);
    if p !in s.order { NobodyHears(s, m, outcome, p); }
    BroadcastOwner(s, m, outcome, s.order, p);
  }

  // ----- The hint -----------------------------------------------------------------------------

  /** No owner that the step takes away has the hinted short id. */
  ghost predicate HintStays(s: Registry, t: Registry) {
    forall p | p in s.channels && p !in t.channels :: Short(p) != s.hint
  }

  lemma DetachedHint(s: Registry, p: PeerId)
    ensures var t := Detached(s, p);
            && t.channels == s.channels - {p}
            && t.hint == if p !in s.channels || Short(p) != s.hint then s.hint
                         else if t.order == [] then "" else Short(t.order[0])
  {
    hide Short, Drop, GatesAfter, DetachedAfter;
    if p !in s.channels { assert s.channels - {p} == s.channels; }
  }

  lemma BroadcastToHint(s: Registry, m: Message, outcome: PeerId -> Outcome, p: PeerId)
    ensures var t := BroadcastTo(s, m, outcome, p);
            && (forall q | q in t.channels :: q in s.channels)
            && (HintStays(s, t) ==> t.hint == s.hint)
  {
    hide Meaning, Detached, Short, Accepted;
    if p in s.channels && p !in s.offline && outcome(p) == Disconnected {
      DetachedHint(s, p);
    } else {
      BroadcastToKeepsHint(s, m, outcome, p);
    }
  }

  lemma BroadcastToKeepsHint(s: Registry, m: Message, outcome: PeerId -> Outcome, p: PeerId)
    requires !(p in s.channels && p !in s.offline && outcome(p) == Disconnected)
    ensures var t := BroadcastTo(s, m, outcome, p); t.hint == s.hint && t.channels == s.channels
  {
    hide Meaning, Accepted, Detached;
    var t := BroadcastTo(s, m, outcome, p);
    if p !in s.channels {
      assert t == s;
    } else if p in s.offline {
      assert t == s.(buffers := t.buffers, since := t.since);
    } else {
      assert t == s.(sent := t.sent);
    }
  }

  lemma {:induction false} BroadcastHint(s: Registry, m: Message, outcome: PeerId -> Outcome, ps: seq<PeerId>)
    ensures var t := BroadcastOver(s, m, outcome, ps);
            && (forall q | q in t.channels :: q in s.channels)
            && (HintStays(s, t) ==> t.hint == s.hint)
    decreases |ps|
  {
    hide BroadcastTo, Short;
    if ps != [] {
      BroadcastToHint(s, m, outcome, ps[0]);
      BroadcastHint(BroadcastTo(s, m, outcome, ps[0]), m, outcome, ps[1..]);
    }
  }

  lemma MarkedOnlineHint(s: Registry, p: PeerId, outcome: nat -> Outcome)
    ensures HintStays(s, MarkedOnline(s, p, outcome)) ==> MarkedOnline(s, p, outcome).hint == s.hint
  {
    hide Flushed, Resumed, Short, FlushOf, Contents, KeysOf, HintStays;
    ResumedHint(s, p);
    if p in s.channels { FlushedHint(s, p, FlushOf(Contents(s.buffers, p), outcome, 0, KeysOf(s.keys, p))); }
  }

  lemma ResumedHint(s: Registry, p: PeerId)
    ensures Resumed(s, p).hint == s.hint
  {
  }

  lemma FlushedHint(s: Registry, p: PeerId, f: Flush)
    requires p in s.channels
    ensures var t := Flushed(s, p, s.channels[p], f); HintStays(s, t) ==> t.hint == s.hint
  {
    hide Detached, Short, WithKeys, Accepted;
    if f.disconnected { DetachedHint(s, p); }
  }

  lemma ClearedHint(s: Registry, cuts: set<PeerId>)
    requires Valid(s)
    ensures HintStays(s, Next(s, DetachAll(cuts))) ==> Next(s, DetachAll(cuts)).hint == s.hint
  {
    DetachAllValid(s, cuts);
    hide Next, Listed, Aged, Inverse, Present, Bounded, Gated, Older, Tracked, Accepting, Short;
    assert Next(s, DetachAll(cuts)).hint == "" by { NoHint(Next(s, DetachAll(cuts))); }
  }

  lemma NoHint(s: Registry)
    requires Valid(s) && s.channels == map[]
    ensures s.hint == ""
  {
    hide Listed, Aged, Inverse, Present, Bounded, Gated, Older, Tracked, Accepting;
  }

  /** The hint is the short id of the owner last attached, until an owner of that short id leaves; then it is
      that of the owner attached longest. */
  lemma HintFollows(s: Registry, step: Step)
    requires Valid(s)
    ensures step.Attach? ==> Next(s, step).hint == Short(step.peer)
    ensures !step.Attach? && HintStays(s, Next(s, step)) ==> Next(s, step).hint == s.hint
    ensures step.Detach? && step.peer in s.channels && Short(step.peer) == s.hint ==>
              var t := Next(s, step); t.hint == if t.order == [] then "" else Short(t.order[0])
  {
    hide Valid, Short, Attached, Farewell, DetachedEach, Cleared, MarkedOffline, MarkedOnline, BroadcastOver, TurnCompleted,
         Synced, GateCleared, HintStays, Drop;
    match step
    case Attach(p, drains, turnActive, router) => AttachedHint(s, p, drains, turnActive, router);
    case Detach(p, cut) => FarewellHint(s, p, cut);
    case DetachAll(cuts) => ClearedHint(s, cuts);
    case MarkOnline(p, outcome) => MarkedOnlineHint(s, p, outcome);
    case Broadcast(m, outcome) => BroadcastHint(s, m, outcome, s.order);
    case _ => QuietHint(s, step);
  }

  lemma AttachedHint(s: Registry, p: PeerId, drains: bool, turnActive: bool, router: int)
    ensures Attached(s, p, drains, turnActive, router).hint == Short(p)
  {
    hide Detached, Short;
  }

  lemma QuietHint(s: Registry, step: Step)
    requires step.MarkOffline? || step.SessionSync? || step.CompleteTurn? || step.TakeLateTargets? || step.Settles? || step.GateResolves?
    ensures Next(s, step).hint == s.hint
  {
    hide Meaning, GateSettled;
  }

  lemma FarewellHint(s: Registry, p: PeerId, cut: bool)
    ensures var t := Farewell(s, p, cut);
            && (HintStays(s, t) ==> t.hint == s.hint)
            && (p in s.channels && Short(p) == s.hint ==> t.hint == if t.order == [] then "" else Short(t.order[0]))
  {
    hide Detached, GatesAfter, DetachedAfter, Short;
    DetachedHint(s, p);
  }

  // ----- Whole runs ------------------------------------------------------------------------

  lemma {:induction false} DetachedEachWorld(s: Registry, ps: seq<PeerId>, cuts: set<PeerId>)
    ensures WorldOf(DetachedEach(s, ps, cuts)) == WorldOf(s)
    decreases |ps|
  {
    hide Drop, HintAfter, GatesAfter, DetachedAfter;
    if ps != [] { DetachedEachWorld(Farewell(s, ps[0], ps[0] in cuts), ps[1..], cuts); }
  }

  lemma BroadcastToWorld(s: Registry, m: Message, outcome: PeerId -> Outcome, p: PeerId)
    ensures WorldOf(BroadcastTo(s, m, outcome, p)) == WorldOf(s)
  {
    hide Meaning, Drop, HintAfter, GatesAfter, DetachedAfter, Accepted;
  }

  lemma {:induction false} BroadcastWorld(s: Registry, m: Message, outcome: PeerId -> Outcome, ps: seq<PeerId>)
    ensures WorldOf(BroadcastOver(s, m, outcome, ps)) == WorldOf(s)
    decreases |ps|
  {
    hide BroadcastTo, WorldOf;
    if ps != [] {
      BroadcastToWorld(s, m, outcome, ps[0]);
      BroadcastWorld(BroadcastTo(s, m, outcome, ps[0]), m, outcome, ps[1..]);
    }
  }

  lemma MarkedOnlineWorld(s: Registry, p: PeerId, outcome: nat -> Outcome)
    ensures WorldOf(MarkedOnline(s, p, outcome)) == WorldOf(s)
  {
    hide FlushOf, Contents, KeysOf, WithKeys, Accepted, Detached, WorldOf;
    DetachedWorld(s, p);
    ResumedWorld(s, p);
    hide Flushed;
    if p in s.channels { FlushedWorld(s, p, s.channels[p], FlushOf(Contents(s.buffers, p), outcome, 0, KeysOf(s.keys, p))); }
  }

  lemma DetachedWorld(s: Registry, p: PeerId)
    ensures WorldOf(Detached(s, p)) == WorldOf(s)
  {
    hide Drop, HintAfter, GatesAfter, DetachedAfter;
  }

  lemma ResumedWorld(s: Registry, p: PeerId)
    ensures WorldOf(Resumed(s, p)) == WorldOf(s)
  {
  }

  lemma FlushedWorld(s: Registry, p: PeerId, c: Channel, f: Flush)
    ensures WorldOf(Flushed(s, p, c, f)) == WorldOf(s)
  {
    hide Detached, WithKeys, Accepted;
    DetachedWorld(s, p);
  }

  /** A step numbers a channel or settles one, and changes nothing else outside its owners. */
  lemma StepWorld(s: Registry, step: Step)
    ensures WorldOf(Next(s, step)) == WorldAfter(WorldOf(s), step)
  {
    hide DetachedEach, BroadcastOver, Meaning, FlushOf, Contents, Drop, HintAfter, GatesAfter, DetachedAfter, GateSettled,
         KeysOf, WithKeys, Accepted, MarkedOnline;
    match step
    case MarkOnline(p, outcome) => MarkedOnlineWorld(s, p, outcome);
    case DetachAll(cuts) => DetachedEachWorld(s, s.order, cuts);
    case Broadcast(m, outcome) => BroadcastWorld(s, m, outcome, s.order);
    case _ =>
  }

  /** So over every run an owner's life is that of its machine alone. */
  lemma {:induction false} OwnerLife(s: Registry, steps: seq<Step>, p: PeerId)
    requires Valid(s)
    ensures OwnerOf(Run(s, steps), p) == OwnerRun(OwnerOf(s, p), p, steps, WorldOf(s))
    decreases |steps|
  {
    hide Valid, Next, OwnerOf, OwnerAfter, WorldOf;
    if steps != [] {
      OwnerStep(s, steps[0], p);
      StepWorld(s, steps[0]);
      StepValid(s, steps[0]);
      OwnerLife(Next(s, steps[0]), steps[1..], p);
    }
  }

  function WorldRun(w: World, steps: seq<Step>): World
    decreases |steps|
  {
    if steps == [] then w else WorldRun(WorldAfter(w, steps[0]), steps[1..])
  }

  lemma {:induction false} OwnerRunConcat(o: Owner, p: PeerId, a: seq<Step>, b: seq<Step>, w: World)
    ensures OwnerRun(o, p, a + b, w) == OwnerRun(OwnerRun(o, p, a, w), p, b, WorldRun(w, a))
    decreases |a|
  {
    hide OwnerAfter, WorldAfter;
    if a == [] {
      assert a + b == b;
    } else {
      assert (a + b)[1..] == a[1..] + b;
      OwnerRunConcat(OwnerAfter(o, p, a[0], w), p, a[1..], b, WorldAfter(w, a[0]));
    }
  }

  lemma OwnerRunOne(o: Owner, p: PeerId, step: Step, w: World)
    ensures OwnerRun(o, p, [step], w) == OwnerAfter(o, p, step, w)
  {
    assert [step][1..] == [];
  }

  /** What a step is to an offline owner that it does not touch. */
  function HappeningOf(step: Step): seq<Happening> {
    match step
    case Broadcast(m, _) => [Sent(m)]
    case CompleteTurn => [TurnEnd]
    case _ => []
  }

  function HappeningsOf(steps: seq<Step>): seq<Happening> {
    if steps == [] then [] else HappeningOf(steps[0]) + HappeningsOf(steps[1..])
  }

  /** Steps that attach, detach or bring online the owner `p`, whose channel is `c`. */
  predicate Touches(step: Step, p: PeerId, c: Channel) {
    match step
    case Attach(q, _, _, _) => q == p
    case Detach(q, _) => q == p
    case DetachAll(_) => true
    case MarkOnline(q, _) => q == p
    case SessionSync(d) => d == c
    case _ => false
  }

  lemma MissesOne(o: Owner, p: PeerId, step: Step, w: World)
    requires o.here.Some? && o.here.value.offline && !o.here.value.late && !Touches(step, p, o.here.value.channel)
    ensures var t := OwnerAfter(o, p, step, w);
            t == o.(here := Some(o.here.value.(missed := o.here.value.missed + HappeningOf(step))), gate := t.gate)
  {
    assert o.here.value.missed + [] == o.here.value.missed;
  }

  /** An offline owner misses exactly the broadcasts and turn ends of a run that does not touch it. */
  lemma {:induction false} Misses(o: Owner, p: PeerId, steps: seq<Step>, w: World)
    requires o.here.Some? && o.here.value.offline && !o.here.value.late
    requires forall i | 0 <= i < |steps| :: !Touches(steps[i], p, o.here.value.channel)
    ensures var t := OwnerRun(o, p, steps, w);
            t == o.(here := Some(o.here.value.(missed := o.here.value.missed + HappeningsOf(steps))), gate := t.gate)
    decreases |steps|
  {
    var missed := o.here.value.missed;
    if steps == [] {
      assert missed + [] == missed;
    } else {
      var step := steps[0];
      var now := HappeningOf(step);
      MissesOne(o, p, step, w);
      hide OwnerAfter, Touches, HappeningOf;
      Misses(OwnerAfter(o, p, step, w), p, steps[1..], WorldAfter(w, step));
      ConcatAssociates(missed, now, HappeningsOf(steps[1..]));
    }
  }

  /** `o`, offline, having missed `steps`. */
  function AwayFor(o: Owner, steps: seq<Step>, gate: Option<Gate>): Owner
    requires o.here.Some?
  {
    o.(here := Some(o.here.value.(offline := true, late := false, missed := HappeningsOf(steps))), gate := gate)
  }

  /** An owner goes offline, misses a run that does not touch it, and something more happens. */
  lemma AwayThen(s: Registry, p: PeerId, steps: seq<Step>, last: seq<Step>) returns (gate: Option<Gate>, w: World)
    requires Valid(s) && p in s.channels && p !in s.offline
    requires forall i | 0 <= i < |steps| :: !Touches(steps[i], p, s.channels[p])
    ensures OwnerOf(s, p).here.Some?
    ensures OwnerOf(Run(s, [MarkOffline(p)] + (steps + last)), p) == OwnerRun(AwayFor(OwnerOf(s, p), steps, gate), p, last, w)
  {
    var o := OwnerOf(s, p);
    var left := o.(here := Some(o.here.value.(offline := true, late := false, missed := [])));
    assert OwnerAfter(o, p, MarkOffline(p), WorldOf(s)) == left && WorldAfter(WorldOf(s), MarkOffline(p)) == WorldOf(s);
    hide Valid, OwnerOf, OwnerAfter, Run, Touches, WorldAfter, WorldOf;
    OwnerLife(s, [MarkOffline(p)] + (steps + last), p);
    assert ([MarkOffline(p)] + (steps + last))[1..] == steps + last;
    OwnerRunConcat(left, p, steps, last, WorldOf(s));
    Misses(left, p, steps, WorldOf(s));
    assert [] + HappeningsOf(steps) == HappeningsOf(steps);
    gate, w := OwnerRun(left, p, steps, WorldOf(s)).gate, WorldRun(WorldOf(s), steps);
  }

  /** An owner that goes offline, misses any run of steps, and returns: over a channel that lasts it receives,
      beyond what it had, exactly the kept suffix of that run's broadcasts, less the frames whose send threw, in
      order, and their keys are remembered; over one that disconnects, the owner is detached. */
  lemma ReturnDelivers(s: Registry, p: PeerId, steps: seq<Step>, outcome: nat -> Outcome)
    requires Valid(s) && p in s.channels && p !in s.offline
    requires forall i | 0 <= i < |steps| :: !Touches(steps[i], p, s.channels[p])
    ensures OwnerOf(s, p).here.Some?
    ensures var o, back := OwnerOf(s, p), OwnerOf(Run(s, [MarkOffline(p)] + (steps + [MarkOnline(p, outcome)])), p);
            var frames := Kept(HappeningsOf(steps));
            var cut := FirstCut(frames, outcome, 0);
            && Suffix(frames, Frames(HappeningsOf(steps)))
            && if cut < |frames| then back.here.None? && back.keys == RememberFrame([], frames[cut])
               else
                 var arrived := Arriving(frames, outcome, 0, cut);
                 && back.here == Some(o.here.value.(late := false, missed := [], sent := o.here.value.sent + arrived))
                 && back.keys == RememberedAll(o.keys, arrived)
  {
    var gate, w := AwayThen(s, p, steps, [MarkOnline(p, outcome)]);
    KeptIsSuffix(HappeningsOf(steps));
    OnlineIsNotOffline(s, p);
    hide Valid, OwnerOf, OwnerRun, OwnerAfter, Run, Touches, Kept, Frames, HappeningsOf, Suffix, Arriving, FirstCut,
         RememberedAll, RememberFrame, AwayFor;
    OwnerRunOne(AwayFor(OwnerOf(s, p), steps, gate), p, MarkOnline(p, outcome), w);
    ReturnsFrom(OwnerOf(s, p), p, steps, gate, outcome, w);
  }

  lemma ReturnsFrom(o: Owner, p: PeerId, steps: seq<Step>, gate: Option<Gate>, outcome: nat -> Outcome, w: World)
    requires o.here.Some? && !o.here.value.offline
    ensures var back, frames := OwnerAfter(AwayFor(o, steps, gate), p, MarkOnline(p, outcome), w), Kept(HappeningsOf(steps));
            var cut := FirstCut(frames, outcome, 0);
            if cut < |frames| then back.here.None? && back.keys == RememberFrame([], frames[cut])
            else
              var arrived := Arriving(frames, outcome, 0, cut);
              && back.here == Some(o.here.value.(late := false, missed := [], sent := o.here.value.sent + arrived))
              && back.keys == RememberedAll(o.keys, arrived)
  {
    hide Kept, HappeningsOf, Arriving, FirstCut, RememberedAll, RememberFrame;
  }

  lemma OnlineIsNotOffline(s: Registry, p: PeerId)
    requires p in s.channels && p !in s.offline
    ensures var o := OwnerOf(s, p); o.here.Some? && !o.here.value.offline && o.here.value.missed == []
  {
  }

  lemma {:induction false} QuietArrives(frames: seq<Message>, outcome: nat -> Outcome, from: nat)
    requires from <= |frames| && forall i: nat :: outcome(i) == Delivered
    ensures FirstCut(frames, outcome, from) == |frames| && Arriving(frames, outcome, from, |frames|) == frames[from..]
    decreases |frames| - from
  {
    if from < |frames| {
      QuietArrives(frames, outcome, from + 1);
      assert frames[from..] == [frames[from]] + frames[from + 1..];
    }
  }

  /** When every send succeeds, the whole kept suffix arrives. */
  lemma ReturnDeliversKept(s: Registry, p: PeerId, steps: seq<Step>, outcome: nat -> Outcome)
    requires Valid(s) && p in s.channels && p !in s.offline
    requires forall i | 0 <= i < |steps| :: !Touches(steps[i], p, s.channels[p])
    requires forall i: nat :: outcome(i) == Delivered
    ensures OwnerOf(s, p).here.Some?
    ensures var o, back := OwnerOf(s, p), OwnerOf(Run(s, [MarkOffline(p)] + (steps + [MarkOnline(p, outcome)])), p);
            && back.here.Some? && !back.here.value.offline && back.here.value.channel == o.here.value.channel
            && back.here.value.sent == o.here.value.sent + Kept(HappeningsOf(steps))
  {
    ReturnDelivers(s, p, steps, outcome);
    OnlineIsNotOffline(s, p);
    hide Valid, OwnerOf, Run, Touches, Kept, HappeningsOf;
    var frames := Kept(HappeningsOf(steps));
    QuietArrives(frames, outcome, 0);
    assert frames[0..] == frames;
  }

  /** What a `session_sync` on channel `c` is to the owner `p`. */
  ghost predicate SyncedFor(s: Registry, t: Registry, c: Channel, p: PeerId) {
    var o, q := OwnerOf(s, p), OwnerOf(t, p);
    if p in s.channels && s.channels[p] == c && p in s.offline
    then o.here.Some? && q == o.(here := Some(o.here.value.(offline := false, missed := []))) && p !in t.buffers && p !in t.since
    else q == o
  }

  /** A `session_sync` on an owner's current channel resumes it with nothing replayed and nothing buffered, and
      touches no other owner; on any other channel, or for an owner online, it does nothing. */
  lemma SyncResumes(s: Registry, c: Channel)
    requires Valid(s)
    ensures forall p :: SyncedFor(s, Next(s, SessionSync(c)), c, p)
    ensures (forall p | p in s.offline && p in s.channels :: s.channels[p] != c) ==> Next(s, SessionSync(c)) == s
  {
    forall p ensures SyncedFor(s, Next(s, SessionSync(c)), c, p) { SyncResumesOne(s, c, p); }
    if forall p | p in s.offline && p in s.channels :: s.channels[p] != c { SyncElsewhere(s, c); }
  }

  lemma SyncResumesOne(s: Registry, c: Channel, p: PeerId)
    requires Valid(s)
    ensures SyncedFor(s, Next(s, SessionSync(c)), c, p)
  {
    hide Valid, Next;
    var t := Next(s, SessionSync(c));
    StepValid(s, SessionSync(c));
    OwnerStep(s, SessionSync(c), p);
    OnlineHasNoBuffer(t, p);
  }

  lemma OnlineHasNoBuffer(s: Registry, p: PeerId)
    requires Valid(s)
    ensures p !in s.offline ==> p !in s.buffers && p !in s.since
  {
    hide Listed, Aged, Inverse, Hinted, Bounded, Gated, Older, Accepting, Tracks;
  }

  lemma SyncElsewhere(s: Registry, c: Channel)
    requires forall p | p in s.offline && p in s.channels :: s.channels[p] != c
    ensures Next(s, SessionSync(c)) == s
  {
  }

  /** An owner that goes offline, misses any run of steps, and syncs, receives none of that run's broadcasts and
      the next one directly. */
  lemma SyncSkipsMissed(s: Registry, p: PeerId, steps: seq<Step>, m: Message, outcome: PeerId -> Outcome)
    requires Valid(s) && p in s.channels && p !in s.offline && outcome(p) == Delivered
    requires forall i | 0 <= i < |steps| :: !Touches(steps[i], p, s.channels[p])
    ensures OwnerOf(s, p).here.Some?
    ensures var o := OwnerOf(s, p);
            var run := [MarkOffline(p)] + (steps + ([SessionSync(s.channels[p])] + [Broadcast(m, outcome)]));
            var t := OwnerOf(Run(s, run), p);
            t.here == Some(o.here.value.(late := false, sent := o.here.value.sent + [m])) && t.keys == o.keys
  {
    var c := s.channels[p];
    var gate, w := AwayThen(s, p, steps, [SessionSync(c)] + [Broadcast(m, outcome)]);
    OnlineIsNotOffline(s, p);
    assert OwnerOf(s, p).here.value.channel == c;
    hide Valid, OwnerOf, OwnerRun, OwnerAfter, Run, Touches, HappeningsOf, AwayFor;
    var away := AwayFor(OwnerOf(s, p), steps, gate);
    SyncsThenHears(OwnerOf(s, p), p, steps, gate, m, outcome, w, WorldRun(w, [SessionSync(c)]));
    OwnerRunConcat(away, p, [SessionSync(c)], [Broadcast(m, outcome)], w);
    OwnerRunOne(away, p, SessionSync(c), w);
    OwnerRunOne(OwnerAfter(away, p, SessionSync(c), w), p, Broadcast(m, outcome), WorldRun(w, [SessionSync(c)]));
  }

  lemma SyncsThenHears(o: Owner, p: PeerId, steps: seq<Step>, gate: Option<Gate>, m: Message, outcome: PeerId -> Outcome,
                       w: World, v: World)
    requires o.here.Some? && !o.here.value.offline && o.here.value.missed == [] && outcome(p) == Delivered
    ensures var back := OwnerAfter(AwayFor(o, steps, gate), p, SessionSync(o.here.value.channel), w);
            var t := OwnerAfter(back, p, Broadcast(m, outcome), v);
            t.here == Some(o.here.value.(late := false, sent := o.here.value.sent + [m])) && t.keys == o.keys
  {
    hide HappeningsOf;
  }

  // ----- Remembered keys -----------------------------------------------------------------------

  function KeysIn(ms: seq<Message>): seq<string> {
    if ms == [] then []
    else KeysIn(ms[..|ms| - 1]) + if ms[|ms| - 1].compactionKey.Some? then [ms[|ms| - 1].compactionKey.value] else []
  }

  /** Of distinct new keys the newest are remembered, up to the cap. */
  lemma {:induction false} RemembersNewest(keys: seq<string>, ms: seq<Message>)
    requires Distinct(keys + KeysIn(ms)) && |keys| <= MAX_FLUSHED_KEYS
    ensures var all := keys + KeysIn(ms);
            RememberedAll(keys, ms) == if |all| <= MAX_FLUSHED_KEYS then all else Newest(all, MAX_FLUSHED_KEYS)
  {
    if ms == [] {
      assert keys + [] == keys;
    } else {
      var init, last := ms[..|ms| - 1], ms[|ms| - 1];
      var before := keys + KeysIn(init);
      if last.compactionKey.Some? {
        var k := last.compactionKey.value;
        ConcatAssociates(keys, KeysIn(init), [k]);
        assert keys + KeysIn(ms) == before + [k];
        DistinctInit(before, k);
        RemembersNewest(keys, init);
        RemembersOneMore(before, k);
      } else {
        assert KeysIn(init) + [] == KeysIn(init);
        RemembersNewest(keys, init);
      }
    }
  }

  lemma DistinctInit(s: seq<string>, x: string)
    requires Distinct(s + [x])
    ensures Distinct(s) && x !in s
  {
    assert forall i | 0 <= i < |s| :: (s + [x])[i] == s[i];
    assert (s + [x])[|s|] == x;
  }

  lemma RemembersOneMore(all: seq<string>, k: string)
    requires k !in all
    ensures var kept := if |all| <= MAX_FLUSHED_KEYS then all else Newest(all, MAX_FLUSHED_KEYS);
            Remembered(kept, k) == if |all| + 1 <= MAX_FLUSHED_KEYS then all + [k] else Newest(all + [k], MAX_FLUSHED_KEYS)
  {
  }

  /** While all keys together are within the cap, repeated ones included, none is forgotten. */
  lemma {:induction false} RemembersAllWithinCap(keys: seq<string>, ms: seq<Message>)
    requires |keys| + |KeysIn(ms)| <= MAX_FLUSHED_KEYS
    ensures forall k :: k in RememberedAll(keys, ms) <==> k in keys || k in KeysIn(ms)
    ensures |RememberedAll(keys, ms)| <= |keys| + |KeysIn(ms)|
  {
    if ms != [] { RemembersAllWithinCap(keys, ms[..|ms| - 1]); }
  }
}
