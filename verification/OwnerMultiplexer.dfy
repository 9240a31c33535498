/** The app-owner channel registry (pi-extension/src/extension/owner_multiplexer.ts): attachment, fan-out with
    offline buffering, replay-suppression keys, and the per-owner gate that orders channel generations.

    A channel's `send` may throw or may disconnect the channel on the spot, which re-enters `detach`
    (pi-extension/src/transport/peer_channel.ts); each send's outcome is an input. */
module OwnerMultiplexer {
  import opened Prelude
  import opened OfflineBuffer

  type PeerId = string

  /** A channel object: identity, and whether it has accepted work to drain (`whenIdle`). */
  datatype Channel = Channel(id: nat, drains: bool)

  datatype Outcome = Delivered | Threw | Disconnected

  /** A reattach gate: settled when its channel and the gate before it have settled. */
  datatype Gate = Gate(channel: Channel, prior: Option<Gate>)

  const MAX_FLUSHED_KEYS: nat := 128

  function Short(p: PeerId): string { if |p| <= 8 then p else p[..8] }

  // ----- Consistency of the registry, part by part ----------------------------------

  /** `order` lists the attached owners in insertion order. */
  ghost predicate Listed(order: seq<PeerId>, channels: map<PeerId, Channel>) {
    Distinct(order) && forall p :: p in order <==> p in channels
  }

  /** In order of attachment: channels are numbered as they are attached. */
  ghost predicate Aged(order: seq<PeerId>, channels: map<PeerId, Channel>) {
    forall i, j | 0 <= i < j < |order| ::
      order[i] in channels && order[j] in channels && channels[order[i]].id < channels[order[j]].id
  }

  /** The two channel maps are mutually inverse, and every channel has a router. */
  ghost predicate Inverse(channels: map<PeerId, Channel>, peers: map<Channel, PeerId>, routers: map<Channel, int>) {
    && (forall p | p in channels :: channels[p] in peers && peers[channels[p]] == p)
    && (forall c | c in peers :: peers[c] in channels && channels[peers[c]] == c)
    && routers.Keys == peers.Keys
  }

  /** Offline and late-attached owners are disjoint sets of attached owners; buffers belong to offline owners. */
  ghost predicate Present(channels: map<PeerId, Channel>, offline: set<PeerId>, late: set<PeerId>,
                          buffers: map<PeerId, Buffer>) {
    offline <= channels.Keys && late <= channels.Keys && offline !! late && buffers.Keys <= offline
  }

  /** The short-id hint names an attached owner whenever there is one. */
  ghost predicate Hinted(channels: map<PeerId, Channel>, hint: string) {
    if channels == map[] then hint == "" else exists p :: p in channels && Short(p) == hint
  }

  /** Remembered keys are bounded and distinct. */
  ghost predicate Bounded(keys: map<PeerId, seq<string>>) {
    forall p | p in keys :: Distinct(keys[p]) && 0 < |keys[p]| <= MAX_FLUSHED_KEYS
  }

  ghost predicate Older(peers: map<Channel, PeerId>, id: nat) { forall c | c in peers :: c.id < id }

  /** An owner's buffer is what its happenings since going offline mean. */
  ghost predicate Tracks(buffers: map<PeerId, Buffer>, since: map<PeerId, seq<Happening>>, p: PeerId) {
    p in since && if p in buffers then buffers[p] == Meaning(since[p]) else Frames(since[p]) == []
  }

  ghost predicate Tracked(offline: set<PeerId>, buffers: map<PeerId, Buffer>, since: map<PeerId, seq<Happening>>) {
    since.Keys == offline && forall p | p in offline :: Tracks(buffers, since, p)
  }

  /** Accepted frames are recorded for exactly the attached channels. */
  ghost predicate Accepting(sent: map<Channel, seq<Message>>, peers: map<Channel, PeerId>) { sent.Keys == peers.Keys }

  ghost function Chain(g: Gate): set<Channel> {
    {g.channel} + if g.prior.Some? then Chain(g.prior.value) else {}
  }

  predicate GateSettled(g: Gate, settled: set<Channel>) {
    g.channel in settled && (g.prior.Some? ==> GateSettled(g.prior.value, settled))
  }

  /** A settled gate vouches for every generation chained into it. */
  lemma {:induction false} SettledChain(g: Gate, settled: set<Channel>)
    ensures GateSettled(g, settled) <==> Chain(g) <= settled
  {
    if g.prior.Some? { SettledChain(g.prior.value, settled); }
  }

  /** Every detached generation has settled or is chained into its owner's current gate, and a gate chains
      nothing else. */
  ghost predicate Gated(detached: map<PeerId, set<Channel>>, gates: map<PeerId, Gate>, settled: set<Channel>) {
    && (forall p, c | p in detached && c in detached[p] :: c in settled || (p in gates && c in Chain(gates[p])))
    && (forall p | p in gates :: p in detached && Chain(gates[p]) <= detached[p])
  }

  function Drop(s: seq<PeerId>, x: PeerId): (r: seq<PeerId>)
    ensures forall y :: y in r <==> y in s && y != x
  {
    if s == [] then [] else (if s[0] == x then [] else [s[0]]) + Drop(s[1..], x)
  }

  lemma {:induction false} DropDistinct(s: seq<PeerId>, x: PeerId)
    requires Distinct(s)
    ensures Distinct(Drop(s, x))
  {
    if s != [] {
      DropDistinct(s[1..], x);
      assert s[0] !in s[1..];
    }
  }

  // ----- Remembered compaction keys ---------------------------------------------------

  /** An insertion-ordered set after adding `k` and evicting the oldest beyond the cap. */
  function Remembered(keys: seq<string>, k: string): seq<string> {
    var added := if k in keys then keys else keys + [k];
    if |added| > MAX_FLUSHED_KEYS then added[|added| - MAX_FLUSHED_KEYS..] else added
  }

  lemma RememberedBounded(keys: seq<string>, k: string)
    requires Distinct(keys) && |keys| <= MAX_FLUSHED_KEYS
    ensures var r := Remembered(keys, k);
            Distinct(r) && 0 < |r| <= MAX_FLUSHED_KEYS && k in r
    ensures |keys| < MAX_FLUSHED_KEYS ==> forall x | x in keys :: x in Remembered(keys, k)
  {
    if k !in keys {
      var added := keys + [k];
      assert added[|keys|] == k;
      var r := Remembered(keys, k);
      assert r[|r| - 1] == k;
    }
  }

  // ----- The flush ------------------------------------------------------------------

  /** What a flush of `frames` over one channel does: the frames that went out, the keys remembered for the
      owner, and whether a send disconnected the channel, which ends the flush and detaches the owner. */
  datatype Flush = Flush(delivered: seq<Message>, keys: seq<string>, disconnected: bool)

  function RememberFrame(keys: seq<string>, m: Message): seq<string> {
    if m.compactionKey.Some? then Remembered(keys, m.compactionKey.value) else keys
  }

  /** A frame is remembered when its send returned, even if that send disconnected and `detach` forgot
      the owner's keys first. */
  function FlushOf(frames: seq<Message>, outcome: nat -> Outcome, from: nat, keys: seq<string>): Flush
    requires from <= |frames|
    decreases |frames| - from
  {
    if from == |frames| then Flush([], keys, false)
    else match outcome(from)
      case Disconnected => Flush([], RememberFrame([], frames[from]), true)
      case Threw => FlushOf(frames, outcome, from + 1, keys)
      case Delivered =>
        var rest := FlushOf(frames, outcome, from + 1, RememberFrame(keys, frames[from]));
        rest.(delivered := [frames[from]] + rest.delivered)
  }

  /** A flush whose sends all succeed delivers every kept frame in order. */
  lemma {:induction false} QuietFlushDeliversAll(frames: seq<Message>, outcome: nat -> Outcome, from: nat, keys: seq<string>)
    requires from <= |frames| && forall i | from <= i < |frames| :: outcome(i) == Delivered
    ensures var f := FlushOf(frames, outcome, from, keys);
            f.delivered == frames[from..] && !f.disconnected
    decreases |frames| - from
  {
    if from < |frames| {
      QuietFlushDeliversAll(frames, outcome, from + 1, RememberFrame(keys, frames[from]));
      assert frames[from..] == [frames[from]] + frames[from + 1..];
    }
  }

  /** The first send from `from` on that disconnects, or the end of the frames. */
  function FirstCut(frames: seq<Message>, outcome: nat -> Outcome, from: nat): (cut: nat)
    requires from <= |frames|
    ensures from <= cut <= |frames|
    decreases |frames| - from
  {
    if from == |frames| || outcome(from) == Disconnected then from else FirstCut(frames, outcome, from + 1)
  }

  /** The frames between two places whose sends succeed. */
  function Arriving(frames: seq<Message>, outcome: nat -> Outcome, from: nat, to: nat): seq<Message>
    requires from <= to <= |frames|
    decreases |frames| - from
  {
    if from == to then []
    else (if outcome(from) == Delivered then [frames[from]] else []) + Arriving(frames, outcome, from + 1, to)
  }

  /** A flush delivers the frames before its first disconnect, less those whose send threw. */
  lemma {:induction false} FlushDelivers(frames: seq<Message>, outcome: nat -> Outcome, from: nat, keys: seq<string>)
    requires from <= |frames|
    ensures var f, cut := FlushOf(frames, outcome, from, keys), FirstCut(frames, outcome, from);
            f.delivered == Arriving(frames, outcome, from, cut) && (f.disconnected <==> cut < |frames|)
    decreases |frames| - from
  {
    if from < |frames| && outcome(from) != Disconnected {
      var next := if outcome(from) == Threw then keys else RememberFrame(keys, frames[from]);
      FlushDelivers(frames, outcome, from + 1, next);
      var rest := Arriving(frames, outcome, from + 1, FirstCut(frames, outcome, from + 1));
      assert [] + rest == rest;
    }
  }

  lemma {:induction false} FlushBounded(frames: seq<Message>, outcome: nat -> Outcome, from: nat, keys: seq<string>)
    requires from <= |frames| && Distinct(keys) && |keys| <= MAX_FLUSHED_KEYS
    ensures var f := FlushOf(frames, outcome, from, keys);
            Distinct(f.keys) && |f.keys| <= MAX_FLUSHED_KEYS
    decreases |frames| - from
  {
    if from < |frames| {
      var m := frames[from];
      if m.compactionKey.Some? {
        RememberedBounded(keys, m.compactionKey.value);
        RememberedBounded([], m.compactionKey.value);
      }
      if outcome(from) == Delivered {
        FlushBounded(frames, outcome, from + 1, RememberFrame(keys, m));
      } else if outcome(from) == Threw {
        FlushBounded(frames, outcome, from + 1, keys);
      }
    }
  }

  /** The first send that disconnects, if any. */
  ghost predicate DisconnectsAt(frames: seq<Message>, outcome: nat -> Outcome, from: nat, k: nat) {
    from <= k < |frames| && outcome(k) == Disconnected && forall i | from <= i < k :: outcome(i) != Disconnected
  }

  /** Keys outlive the detached owner exactly when the disconnecting frame was a keyed compaction. */
  lemma {:induction false} KeysOutliveOwnerIff(frames: seq<Message>, outcome: nat -> Outcome, from: nat, keys: seq<string>)
    requires from <= |frames|
    ensures var f := FlushOf(frames, outcome, from, keys);
            && (f.disconnected <==> exists k: nat :: DisconnectsAt(frames, outcome, from, k))
            && (f.disconnected && f.keys != []
                <==> exists k: nat :: DisconnectsAt(frames, outcome, from, k) && frames[k].compactionKey.Some?)
    decreases |frames| - from
  {
    if from < |frames| {
      if outcome(from) == Disconnected {
        assert DisconnectsAt(frames, outcome, from, from);
        if frames[from].compactionKey.Some? { RememberedBounded([], frames[from].compactionKey.value); }
      } else {
        var next := if outcome(from) == Threw then keys else RememberFrame(keys, frames[from]);
        KeysOutliveOwnerIff(frames, outcome, from + 1, next);
        var rest := FlushOf(frames, outcome, from + 1, next);
        assert FlushOf(frames, outcome, from, keys).disconnected == rest.disconnected;
        assert FlushOf(frames, outcome, from, keys).keys == rest.keys;
        var n := from + 1;
        forall k: nat ensures DisconnectsAt(frames, outcome, from, k) <==> DisconnectsAt(frames, outcome, n, k) {
          if DisconnectsAt(frames, outcome, n, k) {
            forall i | from <= i < k ensures outcome(i) != Disconnected { if i != from { assert n <= i; } }
          }
        }
      }
    }
  }

  // ----- The registry -----------------------------------------------------------------

  /** The registry, with three histories: what happened to each offline owner since it left, the frames each
      attached channel accepted, and the draining generations each owner has detached. */
  datatype Registry = Registry(
    channels: map<PeerId, Channel>,
    order: seq<PeerId>,                          // the insertion order of `channels`
    peers: map<Channel, PeerId>,
    routers: map<Channel, int>,
    gates: map<PeerId, Gate>,
    offline: set<PeerId>,
    buffers: map<PeerId, Buffer>,
    keys: map<PeerId, seq<string>>,
    hint: string,
    late: set<PeerId>,
    nextChannelId: nat,
    settled: set<Channel>,
    since: map<PeerId, seq<Happening>>,
    sent: map<Channel, seq<Message>>,
    detached: map<PeerId, set<Channel>>)

  const EMPTY_REGISTRY :=
    Registry(map[], [], map[], map[], map[], {}, map[], map[], "", {}, 0, {}, map[], map[], map[])

  ghost predicate Valid(s: Registry) {
    && Listed(s.order, s.channels) && Aged(s.order, s.channels)
    && Inverse(s.channels, s.peers, s.routers)
    && Present(s.channels, s.offline, s.late, s.buffers)
    && Hinted(s.channels, s.hint)
    && Bounded(s.keys)
    && Gated(s.detached, s.gates, s.settled)
    && Older(s.peers, s.nextChannelId)
    && Tracked(s.offline, s.buffers, s.since)
    && Accepting(s.sent, s.peers)
  }

  /** Remembered keys exist only for attached owners. */
  ghost predicate KeysAttached(s: Registry) { s.keys.Keys <= s.channels.Keys }

  /** Everything that can happen to the registry. The outcomes of the sends a step makes are part of it. */
  datatype Step =
    | Attach(peer: PeerId, drains: bool, turnActive: bool, router: int)
    | Detach(peer: PeerId, cut: bool)            // cut: sending the farewell disconnects the channel
    | DetachAll(cuts: set<PeerId>)
    | MarkOffline(peer: PeerId)
    | MarkOnline(peer: PeerId, outcome: nat -> Outcome)
    | SessionSync(channel: Channel)
    | Broadcast(message: Message, outcomeFor: PeerId -> Outcome)
    | CompleteTurn
    | TakeLateTargets
    | Settles(channel: Channel)
    | GateResolves(peer: PeerId, gate: Gate)

  function Next(s: Registry, step: Step): Registry {
    match step
    case Attach(p, drains, turnActive, router) => Attached(s, p, drains, turnActive, router)
    case Detach(p, cut) => Farewell(s, p, cut)
    case DetachAll(cuts) => Cleared(DetachedEach(s, s.order, cuts))
    case MarkOffline(p) => MarkedOffline(s, p)
    case MarkOnline(p, outcome) => MarkedOnline(s, p, outcome)
    case SessionSync(c) => Synced(s, c)
    case Broadcast(m, outcome) => BroadcastOver(s, m, outcome, s.order)
    case CompleteTurn => TurnCompleted(s)
    case TakeLateTargets => s.(late := {})
    case Settles(c) => s.(settled := s.settled + {c})
    case GateResolves(p, g) => GateCleared(s, p, g)
  }

  function Run(s: Registry, steps: seq<Step>): Registry
    decreases |steps|
  {
    if steps == [] then s else Run(Next(s, steps[0]), steps[1..])
  }

  function GatesAfter(gates: map<PeerId, Gate>, p: PeerId, c: Channel): map<PeerId, Gate> {
    gates[p := Gate(c, if p in gates then Some(gates[p]) else None)]
  }

  function DetachedAfter(detached: map<PeerId, set<Channel>>, p: PeerId, c: Channel): map<PeerId, set<Channel>> {
    detached[p := (if p in detached then detached[p] else {}) + {c}]
  }

  function HintAfter(hint: string, p: PeerId, order: seq<PeerId>): string {
    if hint != Short(p) then hint else if order == [] then "" else Short(order[0])
  }

  function ForgottenBy(s: Registry, p: PeerId, c: Channel): Registry {
    s.(channels := s.channels - {p}, order := Drop(s.order, p), peers := s.peers - {c}, routers := s.routers - {c},
       late := s.late - {p}, offline := s.offline - {p}, buffers := s.buffers - {p}, keys := s.keys - {p},
       hint := HintAfter(s.hint, p, Drop(s.order, p)), since := s.since - {p}, sent := s.sent - {c})
  }

  function Detached(s: Registry, p: PeerId): Registry {
    if p !in s.channels then s
    else
      var c := s.channels[p];
      s.(channels := s.channels - {p}, order := Drop(s.order, p), peers := s.peers - {c}, routers := s.routers - {c},
         gates := if c.drains then GatesAfter(s.gates, p, c) else s.gates,
         detached := if c.drains then DetachedAfter(s.detached, p, c) else s.detached,
         late := s.late - {p}, offline := s.offline - {p}, buffers := s.buffers - {p}, keys := s.keys - {p},
         hint := HintAfter(s.hint, p, Drop(s.order, p)), since := s.since - {p}, sent := s.sent - {c})
  }

  function Installed(s: Registry, p: PeerId, c: Channel, turnActive: bool, router: int): Registry {
    s.(nextChannelId := s.nextChannelId + 1, channels := s.channels[p := c], order := s.order + [p],
       peers := s.peers[c := p], routers := s.routers[c := router], sent := s.sent[c := []], hint := Short(p),
       late := if turnActive then s.late + {p} else s.late)
  }

  function Attached(s: Registry, p: PeerId, drains: bool, turnActive: bool, router: int): Registry {
    var d := Detached(s, p);
    Installed(d, p, Channel(d.nextChannelId, drains), turnActive, router)
  }

  /** A detach with a reason sends a farewell first. If that send disconnects the channel, a whole detach runs
      inside this one, and the rest of this one adds a second gate for the same channel. */
  function Farewell(s: Registry, p: PeerId, cut: bool): Registry {
    var d := Detached(s, p);
    if !cut || p !in s.channels || !s.channels[p].drains then d
    else d.(gates := GatesAfter(d.gates, p, s.channels[p]), detached := DetachedAfter(d.detached, p, s.channels[p]))
  }

  function DetachedEach(s: Registry, ps: seq<PeerId>, cuts: set<PeerId>): Registry
    decreases |ps|
  {
    if ps == [] then s else DetachedEach(Farewell(s, ps[0], ps[0] in cuts), ps[1..], cuts)
  }

  function Cleared(s: Registry): Registry {
    s.(late := {}, offline := {}, buffers := map[], keys := map[], hint := "", since := map[])
  }

  function MarkedOffline(s: Registry, p: PeerId): Registry {
    if p !in s.channels || p in s.offline then s
    else s.(offline := s.offline + {p}, late := s.late - {p}, since := s.since[p := []])
  }

  function Contents(buffers: map<PeerId, Buffer>, p: PeerId): seq<Message> {
    if p in buffers then Messages(buffers[p].completed + buffers[p].current) else []
  }

  function WithKeys(keys: map<PeerId, seq<string>>, p: PeerId, ks: seq<string>): map<PeerId, seq<string>> {
    if ks == [] then keys else keys[p := ks]
  }

  function Resumed(s: Registry, p: PeerId): Registry {
    s.(offline := s.offline - {p}, buffers := s.buffers - {p}, since := s.since - {p})
  }

  function Accepted(sent: map<Channel, seq<Message>>, c: Channel, ms: seq<Message>): map<Channel, seq<Message>> {
    if c in sent then sent[c := sent[c] + ms] else sent
  }

  function MarkedOnline(s: Registry, p: PeerId, outcome: nat -> Outcome): Registry {
    if p !in s.offline then s
    else if p !in s.channels then Resumed(s, p)
    else Flushed(s, p, s.channels[p], FlushOf(Contents(s.buffers, p), outcome, 0, KeysOf(s.keys, p)))
  }

  function Flushed(s: Registry, p: PeerId, c: Channel, f: Flush): Registry {
    if f.disconnected then
      var d := Detached(s, p);
      d.(keys := WithKeys(d.keys, p, f.keys))
    else Resumed(s.(keys := WithKeys(s.keys, p, f.keys), sent := Accepted(s.sent, c, f.delivered)), p)
  }

  function Synced(s: Registry, c: Channel): Registry {
    if c !in s.peers then s
    else
      var p := s.peers[c];
      if p in s.channels && s.channels[p] == c && p in s.offline then Resumed(s, p) else s
  }

  function BroadcastTo(s: Registry, m: Message, outcome: PeerId -> Outcome, p: PeerId): Registry {
    if p !in s.channels then s
    else if p in s.offline then
      if p !in s.since then s
      else s.(buffers := s.buffers[p := Meaning(s.since[p] + [Sent(m)])], since := s.since[p := s.since[p] + [Sent(m)]])
    else match outcome(p)
      case Disconnected => Detached(s, p)
      case Threw => s
      case Delivered => s.(sent := Accepted(s.sent, s.channels[p], [m]))
  }

  function BroadcastOver(s: Registry, m: Message, outcome: PeerId -> Outcome, ps: seq<PeerId>): Registry
    decreases |ps|
  {
    if ps == [] then s else BroadcastOver(BroadcastTo(s, m, outcome, ps[0]), m, outcome, ps[1..])
  }

  function TurnCompleted(s: Registry): Registry {
    s.(since := map p | p in s.since :: s.since[p] + [TurnEnd],
       buffers := map p | p in s.buffers :: if p in s.since then Meaning(s.since[p] + [TurnEnd]) else s.buffers[p])
  }

  function GateCleared(s: Registry, p: PeerId, g: Gate): Registry {
    if p in s.gates && s.gates[p] == g && GateSettled(g, s.settled) then s.(gates := s.gates - {p}) else s
  }

  function KeysOf(keys: map<PeerId, seq<string>>, p: PeerId): seq<string> { if p in keys then keys[p] else [] }

  function Messages(bs: seq<Buffered>): (r: seq<Message>)
    ensures |r| == |bs| && forall i | 0 <= i < |bs| :: r[i] == bs[i].message
  {
    seq(|bs|, i requires 0 <= i < |bs| => bs[i].message)
  }

  // ----- Every step keeps the registry consistent -------------------------------------

  lemma DetachedValid(s: Registry, p: PeerId)
    requires Valid(s)
    ensures Valid(Detached(s, p))
  {
    hide Older, Listed, Aged, Inverse, Present, Hinted, Bounded, Gated, Tracked, Accepting, Drop, Short, HintAfter, GatesAfter, DetachedAfter;
    if p in s.channels {
      var c := s.channels[p];
      ListedRemoved(s.order, s.channels, p);
      AgedRemoved(s.order, s.channels, p);
      InverseRemoved(s.channels, s.peers, s.routers, p, s.nextChannelId);
      PresentRemoved(s.channels, s.offline, s.late, s.buffers, p);
      HintedRemoved(s.order, s.channels, s.hint, p);
      BoundedRemoved(s.keys, p);
      GatedAfter(s.detached, s.gates, s.settled, p, c);
      TrackedRemoved(s.offline, s.buffers, s.since, p);
      AcceptingRemoved(s.sent, s.peers, c);
    }
  }

  lemma InstalledValid(s: Registry, p: PeerId, c: Channel, turnActive: bool, router: int)
    requires Valid(s) && p !in s.channels && c.id == s.nextChannelId
    ensures Valid(Installed(s, p, c, turnActive, router))
  {
    hide Older, Listed, Aged, Inverse, Present, Hinted, Bounded, Gated, Tracked, Accepting, Short;
    ListedAdded(s.order, s.channels, p, c);
    AgedAdded(s.order, s.channels, s.peers, s.routers, s.nextChannelId, p, c);
    InverseAdded(s.channels, s.peers, s.routers, p, c, router, s.nextChannelId);
    PresentAdded(s.channels, s.offline, s.late, s.buffers, p, c, turnActive);
    HintedAdded(s.channels, p, c);
    AcceptingAdded(s.sent, s.peers, p, c);
  }

  lemma AttachedValid(s: Registry, p: PeerId, drains: bool, turnActive: bool, router: int)
    requires Valid(s)
    ensures Valid(Attached(s, p, drains, turnActive, router))
  {
    hide Valid, Installed, Short, HintAfter, GatesAfter, DetachedAfter, Drop;
    DetachedValid(s, p);
    var d := Detached(s, p);
    InstalledValid(d, p, Channel(d.nextChannelId, drains), turnActive, router);
  }

  lemma FarewellValid(s: Registry, p: PeerId, cut: bool)
    requires Valid(s)
    ensures Valid(Farewell(s, p, cut))
  {
    hide Older, Listed, Aged, Inverse, Present, Hinted, Bounded, Gated, Tracked, Accepting, Detached, GatesAfter, DetachedAfter;
    DetachedValid(s, p);
    if p in s.channels {
      var d := Detached(s, p);
      GatedAfter(d.detached, d.gates, d.settled, p, s.channels[p]);
    }
  }

  lemma {:induction false} DetachedEachValid(s: Registry, ps: seq<PeerId>, cuts: set<PeerId>)
    requires Valid(s)
    ensures Valid(DetachedEach(s, ps, cuts))
    decreases |ps|
  {
    hide Valid, Farewell;
    if ps != [] {
      FarewellValid(s, ps[0], ps[0] in cuts);
      DetachedEachValid(Farewell(s, ps[0], ps[0] in cuts), ps[1..], cuts);
    }
  }

  lemma {:induction false} DetachedEachChannels(s: Registry, ps: seq<PeerId>, cuts: set<PeerId>)
    ensures forall p :: p in DetachedEach(s, ps, cuts).channels <==> p in s.channels && p !in ps
    decreases |ps|
  {
    hide Farewell;
    if ps != [] {
      FarewellChannels(s, ps[0], ps[0] in cuts);
      DetachedEachChannels(Farewell(s, ps[0], ps[0] in cuts), ps[1..], cuts);
    }
  }

  lemma FarewellChannels(s: Registry, p: PeerId, cut: bool)
    ensures Farewell(s, p, cut).channels == s.channels - {p}
    ensures Farewell(s, p, cut).keys == if p in s.channels then s.keys - {p} else s.keys
  {
    hide Drop, HintAfter, GatesAfter, DetachedAfter;
    if p !in s.channels { assert s.channels - {p} == s.channels; }
  }

  lemma ClearedValid(s: Registry)
    requires Valid(s) && s.channels == map[]
    ensures Valid(Cleared(s))
  {
    hide Older, Gated;
  }

  lemma DetachAllValid(s: Registry, cuts: set<PeerId>)
    requires Valid(s)
    ensures Valid(Next(s, DetachAll(cuts))) && Next(s, DetachAll(cuts)).channels == map[]
  {
    hide Valid, DetachedEach;
    DetachedEachValid(s, s.order, cuts);
    DetachedEachChannels(s, s.order, cuts);
    ValidListed(s);
    ClearedValid(DetachedEach(s, s.order, cuts));
  }

  lemma ValidListed(s: Registry)
    requires Valid(s)
    ensures Distinct(s.order) && forall p :: p in s.order <==> p in s.channels
  {
    hide Older, Inverse, Present, Hinted, Bounded, Gated, Tracked, Accepting;
  }

  lemma MarkedOfflineValid(s: Registry, p: PeerId)
    requires Valid(s)
    ensures Valid(MarkedOffline(s, p))
  {
    hide Older, Listed, Aged, Inverse, Present, Hinted, Bounded, Gated, Tracked, Accepting;
    if p in s.channels && p !in s.offline {
      PresentOffline(s.channels, s.offline, s.late, s.buffers, p);
      TrackedAdded(s.offline, s.buffers, s.since, s.late, s.channels, p);
    }
  }

  lemma ResumedValid(s: Registry, p: PeerId)
    requires Valid(s)
    ensures Valid(Resumed(s, p))
  {
    hide Older, Listed, Aged, Inverse, Present, Hinted, Bounded, Gated, Tracked, Accepting;
    PresentResumed(s.channels, s.offline, s.late, s.buffers, p);
    TrackedRemoved(s.offline, s.buffers, s.since, p);
  }

  lemma FlushValid(s: Registry, p: PeerId, ks: seq<string>, c: Channel, ms: seq<Message>)
    requires Valid(s) && Distinct(ks) && |ks| <= MAX_FLUSHED_KEYS
    ensures Valid(s.(keys := WithKeys(s.keys, p, ks))) && Valid(s.(sent := Accepted(s.sent, c, ms)))
  {
    hide Older, Listed, Aged, Inverse, Present, Hinted, Gated, Tracked;
  }

  lemma MarkedOnlineValid(s: Registry, p: PeerId, outcome: nat -> Outcome)
    requires Valid(s)
    ensures Valid(MarkedOnline(s, p, outcome))
  {
    hide Valid, Resumed, Detached, FlushOf, WithKeys, Accepted, KeysOf, Contents;
    if p in s.offline {
      if p in s.channels {
        var frames, c := Contents(s.buffers, p), s.channels[p];
        var f := FlushOf(frames, outcome, 0, KeysOf(s.keys, p));
        ValidKeys(s, p);
        FlushBounded(frames, outcome, 0, KeysOf(s.keys, p));
        if f.disconnected {
          DetachedValid(s, p);
          FlushValid(Detached(s, p), p, f.keys, c, []);
        } else {
          FlushValid(s, p, f.keys, c, []);
          var k := s.(keys := WithKeys(s.keys, p, f.keys));
          FlushValid(k, p, [], c, f.delivered);
          ResumedValid(k.(sent := Accepted(k.sent, c, f.delivered)), p);
        }
      } else {
        ResumedValid(s, p);
      }
    }
  }

  lemma ValidKeys(s: Registry, p: PeerId)
    requires Valid(s)
    ensures Distinct(KeysOf(s.keys, p)) && |KeysOf(s.keys, p)| <= MAX_FLUSHED_KEYS
  {
    hide Older, Listed, Aged, Inverse, Present, Hinted, Gated, Tracked, Accepting;
  }

  lemma BroadcastToValid(s: Registry, m: Message, outcome: PeerId -> Outcome, p: PeerId)
    requires Valid(s)
    ensures Valid(BroadcastTo(s, m, outcome, p))
  {
    hide Valid, Detached, Accepted, Meaning;
    if p in s.channels {
      if p in s.offline {
        if p in s.since { BufferedValid(s, p, s.since[p] + [Sent(m)]); }
      } else if outcome(p) == Disconnected {
        DetachedValid(s, p);
      } else {
        FlushValid(s, p, [], s.channels[p], [m]);
      }
    }
  }

  lemma BufferedValid(s: Registry, p: PeerId, h: seq<Happening>)
    requires Valid(s) && p in s.offline
    ensures Valid(s.(buffers := s.buffers[p := Meaning(h)], since := s.since[p := h]))
  {
    hide Older, Listed, Aged, Inverse, Present, Hinted, Bounded, Gated, Tracked, Accepting, Meaning;
    PresentBuffered(s.channels, s.offline, s.late, s.buffers, p, Meaning(h));
    TrackedUpdated(s.offline, s.buffers, s.since, p, Meaning(h), h);
  }

  lemma {:induction false} BroadcastValid(s: Registry, m: Message, outcome: PeerId -> Outcome, ps: seq<PeerId>)
    requires Valid(s)
    ensures Valid(BroadcastOver(s, m, outcome, ps))
    decreases |ps|
  {
    hide Valid, BroadcastTo;
    if ps != [] {
      BroadcastToValid(s, m, outcome, ps[0]);
      BroadcastValid(BroadcastTo(s, m, outcome, ps[0]), m, outcome, ps[1..]);
    }
  }

  lemma TurnCompletedValid(s: Registry)
    requires Valid(s)
    ensures Valid(TurnCompleted(s))
  {
    hide Older, Listed, Aged, Inverse, Present, Hinted, Bounded, Gated, Tracked, Accepting, Meaning;
    var t := TurnCompleted(s);
    PresentSameKeys(s.channels, s.offline, s.late, s.buffers, t.buffers);
    TrackedKeys(s.channels, s.offline, s.late, s.buffers, s.since);
    TrackedSealed(s.offline, s.buffers, s.since, t.buffers);
  }

  lemma GateClearedValid(s: Registry, p: PeerId, g: Gate)
    requires Valid(s)
    ensures Valid(GateCleared(s, p, g))
  {
    hide Older, Listed, Aged, Inverse, Present, Hinted, Bounded, Tracked, Accepting, GateSettled, Chain;
    SettledChain(g, s.settled);
  }

  lemma SettlesValid(s: Registry, c: Channel)
    requires Valid(s)
    ensures Valid(s.(settled := s.settled + {c}))
  {
    hide Older, Listed, Aged, Inverse, Present, Hinted, Bounded, Tracked, Accepting, Chain;
  }

  lemma LateTakenValid(s: Registry)
    requires Valid(s)
    ensures Valid(s.(late := {}))
  {
    hide Older, Listed, Aged, Inverse, Hinted, Bounded, Tracked, Accepting, Gated;
  }

  /** Every step of the registry keeps it consistent. */
  lemma StepValid(s: Registry, step: Step)
    requires Valid(s)
    ensures Valid(Next(s, step))
  {
    hide Valid, Attached, Farewell, DetachedEach, Cleared, MarkedOffline, MarkedOnline, BroadcastOver, TurnCompleted, GateCleared, Resumed;
    match step
    case Attach(p, drains, turnActive, router) => AttachedValid(s, p, drains, turnActive, router);
    case Detach(p, cut) => FarewellValid(s, p, cut);
    case DetachAll(cuts) => DetachAllValid(s, cuts);
    case MarkOffline(p) => MarkedOfflineValid(s, p);
    case MarkOnline(p, outcome) => MarkedOnlineValid(s, p, outcome);
    case SessionSync(c) => if c in s.peers { ResumedValid(s, s.peers[c]); }
    case Broadcast(m, outcome) => BroadcastValid(s, m, outcome, s.order);
    case CompleteTurn => TurnCompletedValid(s);
    case TakeLateTargets => LateTakenValid(s);
    case Settles(c) => SettlesValid(s, c);
    case GateResolves(p, g) => GateClearedValid(s, p, g);
  }

  /** So is every state of every run. */
  lemma {:induction false} RunValid(s: Registry, steps: seq<Step>)
    requires Valid(s)
    ensures Valid(Run(s, steps))
    decreases |steps|
  {
    hide Valid, Next;
    if steps != [] {
      StepValid(s, steps[0]);
      RunValid(Next(s, steps[0]), steps[1..]);
    }
  }

  lemma EmptyValid()
    ensures Valid(EMPTY_REGISTRY) && KeysAttached(EMPTY_REGISTRY)
  {
  }

  // ----- What the registry guarantees over whole runs -----------------------------------

  function Forgotten(s: Registry, p: PeerId): Registry {
    s.(late := s.late - {p}, offline := s.offline - {p}, buffers := s.buffers - {p}, keys := s.keys - {p},
       since := s.since - {p})
  }

  /** The early return of `detach` is right exactly when no key has outlived the owner. */
  lemma NobodyToForget(s: Registry, p: PeerId)
    requires Valid(s) && p !in s.channels
    ensures Forgotten(s, p) == Detached(s, p) <==> p !in s.keys
    ensures KeysAttached(s) ==> Forgotten(s, p) == s
  {
    hide Older, Listed, Aged, Inverse, Hinted, Bounded, Gated, Accepting, Tracks;
    assert p !in s.offline && p !in s.late && p !in s.buffers && p !in s.since;
    assert s.late - {p} == s.late && s.offline - {p} == s.offline;
    assert s.buffers - {p} == s.buffers && s.since - {p} == s.since;
    if p !in s.keys { assert s.keys - {p} == s.keys; }
  }

  /** What an offline owner has buffered is what the broadcasts since it left mean. */
  lemma ContentsAreKept(s: Registry, p: PeerId)
    requires Valid(s) && p in s.offline
    ensures p in s.since && p in s.channels && Contents(s.buffers, p) == Kept(s.since[p])
  {
    hide Older, Listed, Aged, Inverse, Hinted, Bounded, Gated, Accepting, Meaning, Kept, Frames;
    assert Tracks(s.buffers, s.since, p);
    var h := s.since[p];
    MeaningIsKept(h);
    if p in s.buffers {
      assert Contents(s.buffers, p) == Messages(Tagged(Kept(h)));
    } else {
      NoFramesNoContents(h);
      assert Tagged(Kept(h)) == [];
    }
  }

  ghost predicate LeakingFrame(frames: seq<Message>, outcome: nat -> Outcome, k: nat) {
    DisconnectsAt(frames, outcome, 0, k) && frames[k].compactionKey.Some?
  }

  /** A step that leaves keys behind for an owner it detaches: coming online, with the flush cut short by a
      disconnect at a keyed compaction. */
  ghost predicate Leaks(s: Registry, step: Step) {
    step.MarkOnline? && step.peer in s.offline && step.peer in s.since
    && exists k: nat :: LeakingFrame(Kept(s.since[step.peer]), step.outcome, k)
  }

  lemma {:induction false} DetachedEachKeys(s: Registry, ps: seq<PeerId>, cuts: set<PeerId>)
    requires KeysAttached(s)
    ensures KeysAttached(DetachedEach(s, ps, cuts))
    decreases |ps|
  {
    hide Farewell;
    if ps != [] {
      FarewellChannels(s, ps[0], ps[0] in cuts);
      DetachedEachKeys(Farewell(s, ps[0], ps[0] in cuts), ps[1..], cuts);
    }
  }

  lemma {:induction false} BroadcastKeys(s: Registry, m: Message, outcome: PeerId -> Outcome, ps: seq<PeerId>)
    requires KeysAttached(s)
    ensures KeysAttached(BroadcastOver(s, m, outcome, ps))
    decreases |ps|
  {
    hide Meaning;
    if ps != [] { BroadcastKeys(BroadcastTo(s, m, outcome, ps[0]), m, outcome, ps[1..]); }
  }

  lemma MarkedOnlineKeys(s: Registry, p: PeerId, outcome: nat -> Outcome)
    requires Valid(s) && KeysAttached(s)
    ensures KeysAttached(MarkedOnline(s, p, outcome)) <==> !Leaks(s, MarkOnline(p, outcome))
  {
    hide Valid, Contents, Kept, FlushOf;
    if p in s.offline {
      ContentsAreKept(s, p);
      var frames := Kept(s.since[p]);
      KeysOutliveOwnerIff(frames, outcome, 0, KeysOf(s.keys, p));
      forall k: nat ensures LeakingFrame(frames, outcome, k) <==>
                            DisconnectsAt(frames, outcome, 0, k) && frames[k].compactionKey.Some? {}
    }
  }

  /** Keys stay with attached owners except across a leaking step, and then they never do. */
  lemma StepKeys(s: Registry, step: Step)
    requires Valid(s) && KeysAttached(s)
    ensures KeysAttached(Next(s, step)) <==> !Leaks(s, step)
  {
    hide Valid, Farewell, DetachedEach, BroadcastOver, MarkedOnline;
    match step
    case Detach(p, cut) => FarewellChannels(s, p, cut);
    case DetachAll(cuts) => DetachedEachKeys(s, s.order, cuts);
    case MarkOnline(p, outcome) => MarkedOnlineKeys(s, p, outcome);
    case Broadcast(m, outcome) => BroadcastKeys(s, m, outcome, s.order);
    case _ =>
  }

  /** From the start: an owner goes offline, misses one small timestamped compaction, and returns over a channel
      that the replay disconnects; its key stays behind although no owner is attached. */
  lemma KeysCanOutliveOwner(p: PeerId, m: Message)
    requires m.bytes == Some(1) && m.compactionKey.Some?
    ensures var s := Run(EMPTY_REGISTRY, [Attach(p, false, false, 0)] + [MarkOffline(p)] + [Broadcast(m, q => Delivered)]
                                         + [MarkOnline(p, i => Disconnected)]);
            s.channels == map[] && p in s.keys && !KeysAttached(s)
  {
    hide Next, Run, Valid, KeysAttached;
    var a := Next(EMPTY_REGISTRY, Attach(p, false, false, 0));
    var b := Next(a, MarkOffline(p));
    var c := Next(b, Broadcast(m, q => Delivered));
    RunFour(EMPTY_REGISTRY, Attach(p, false, false, 0), MarkOffline(p), Broadcast(m, q => Delivered), MarkOnline(p, i => Disconnected));
    EmptyValid();
    StepValid(EMPTY_REGISTRY, Attach(p, false, false, 0));
    StepValid(a, MarkOffline(p));
    StepValid(b, Broadcast(m, q => Delivered));
    AttachedAlone(p);
    OfflineAlone(a, p);
    BroadcastsOne(b, m, p);
    LeaksAlone(c, p, m);
  }

  lemma OfflineAlone(s: Registry, p: PeerId)
    requires p in s.channels && s.offline == {} && s.since == map[]
    ensures var t := Next(s, MarkOffline(p));
            t.order == s.order && t.channels == s.channels && t.offline == {p} && t.since == map[p := []]
  {
  }

  lemma LeaksAlone(s: Registry, p: PeerId, m: Message)
    requires Valid(s) && s.channels.Keys == {p} && s.offline == {p} && s.since == map[p := [Sent(m)]]
    requires m.bytes == Some(1) && m.compactionKey.Some?
    ensures var t := Next(s, MarkOnline(p, i => Disconnected)); t.channels == map[] && p in t.keys && !KeysAttached(t)
  {
    hide Valid, Contents, FlushOf, Kept, Detached;
    ContentsAreKept(s, p);
    KeepsOne(m);
    FlushCut(m, KeysOf(s.keys, p));
    DetachedAlone(s, p);
  }

  lemma RunFour(s: Registry, a: Step, b: Step, c: Step, d: Step)
    ensures Run(s, [a] + [b] + [c] + [d]) == Next(Next(Next(Next(s, a), b), c), d)
  {
    hide Next, Run;
    NothingRun(s);
    RunAppends(s, [], a);
    assert [] + [a] == [a];
    RunAppends(s, [a], b);
    RunAppends(s, [a] + [b], c);
    RunAppends(s, [a] + [b] + [c], d);
  }

  lemma AttachedAlone(p: PeerId)
    ensures var a := Next(EMPTY_REGISTRY, Attach(p, false, false, 0));
            a.order == [p] && a.channels == map[p := Channel(0, false)] && a.offline == {} && a.since == map[]
  {
    assert Detached(EMPTY_REGISTRY, p) == EMPTY_REGISTRY;
  }

  lemma BroadcastsOne(s: Registry, m: Message, p: PeerId)
    requires s.order == [p] && p in s.channels && s.offline == {p} && s.since == map[p := []]
    ensures var t := Next(s, Broadcast(m, q => Delivered));
            t.channels == s.channels && t.offline == s.offline && t.since == map[p := [Sent(m)]] && t.keys == s.keys
  {
    hide Meaning;
    var outcome := (q: PeerId) => Delivered;
    assert [] + [Sent(m)] == [Sent(m)];
    assert s.order[1..] == [];
    assert BroadcastOver(s, m, outcome, [p]) == BroadcastOver(BroadcastTo(s, m, outcome, p), m, outcome, []);
  }

  lemma KeepsOne(m: Message)
    requires m.bytes == Some(1)
    ensures Kept([Sent(m)]) == [m]
  {
    hide Fits, Frames, OpenInterval, LastSealed, Kept;
    SmallFits(m);
    NothingYet();
    AfterSent([], m);
    assert [] + [m] == [m] && [] + [Sent(m)] == [Sent(m)];
    KeptOpen([Sent(m)]);
  }

  lemma KeptOpen(h: seq<Happening>)
    requires LastSealed(h) == [] && Fits(OpenInterval(h))
    ensures Kept(h) == OpenInterval(h)
  {
    hide Fits, OpenInterval, LastSealed;
    assert LastSealed(h) + OpenInterval(h) == OpenInterval(h);
  }

  lemma FlushCut(m: Message, keys: seq<string>)
    requires m.compactionKey.Some?
    ensures var f := FlushOf([m], i => Disconnected, 0, keys); f.disconnected && f.keys == [m.compactionKey.value]
  {
    assert [] + [m.compactionKey.value] == [m.compactionKey.value];
  }

  lemma DetachedAlone(s: Registry, p: PeerId)
    requires s.channels.Keys == {p}
    ensures Detached(s, p).channels == map[]
  {
    hide Drop, HintAfter, GatesAfter, DetachedAfter;
  }

  lemma {:induction false} RunKeys(s: Registry, steps: seq<Step>)
    requires Valid(s) && KeysAttached(s)
    requires forall i | 0 <= i < |steps| :: !Leaks(Run(s, steps[..i]), steps[i])
    ensures KeysAttached(Run(s, steps))
    decreases |steps|
  {
    hide Valid, KeysAttached, Leaks, Next;
    if steps != [] {
      assert Run(s, steps[..0]) == s;
      StepValid(s, steps[0]);
      StepKeys(s, steps[0]);
      forall i | 0 <= i < |steps| - 1 ensures !Leaks(Run(Next(s, steps[0]), steps[1..][..i]), steps[1..][i]) {
        assert steps[..i + 1][0] == steps[0] && steps[..i + 1][1..] == steps[1..][..i];
        assert Run(s, steps[..i + 1]) == Run(Next(s, steps[0]), steps[1..][..i]);
      }
      RunKeys(Next(s, steps[0]), steps[1..]);
    }
  }

  lemma DetachedChannels(s: Registry, p: PeerId)
    ensures p !in Detached(s, p).channels
  {
    hide Drop, HintAfter, GatesAfter, DetachedAfter;
  }

  lemma ValidSent(s: Registry, p: PeerId)
    requires Valid(s) && p in s.channels
    ensures s.channels[p] in s.sent && s.channels[p] in s.peers && s.peers[s.channels[p]] == p
  {
    hide Listed, Aged, Present, Hinted, Bounded, Gated, Tracked;
  }

  // ----- Gates --------------------------------------------------------------------------

  /** Every draining generation of `p` detached so far has settled. */
  ghost predicate AllSettled(s: Registry, p: PeerId) { p in s.detached ==> s.detached[p] <= s.settled }

  lemma NoGateAllSettled(s: Registry, p: PeerId)
    requires Valid(s) && p !in s.gates
    ensures AllSettled(s, p)
  {
    hide Older, Listed, Aged, Inverse, Present, Hinted, Bounded, Tracked, Accepting, Chain;
  }

  /** Every generation known before is still known, and every gate is still there or has a later one
      chained onto it. */
  ghost predicate Grown(gates: map<PeerId, Gate>, detached: map<PeerId, set<Channel>>,
                        laterGates: map<PeerId, Gate>, laterDetached: map<PeerId, set<Channel>>) {
    && (forall p | p in detached :: p in laterDetached && detached[p] <= laterDetached[p])
    && (forall p | p in gates :: p in laterGates && Chain(gates[p]) <= Chain(laterGates[p]))
  }

  ghost predicate Extends(s: Registry, t: Registry) { Grown(s.gates, s.detached, t.gates, t.detached) }

  lemma GrownSame(gates: map<PeerId, Gate>, detached: map<PeerId, set<Channel>>)
    ensures Grown(gates, detached, gates, detached)
  {
    hide Chain;
  }

  lemma GrownByDetach(gates: map<PeerId, Gate>, detached: map<PeerId, set<Channel>>, p: PeerId, c: Channel)
    ensures Grown(gates, detached, GatesAfter(gates, p, c), DetachedAfter(detached, p, c))
  {
  }

  lemma ExtendsTransitive(s: Registry, t: Registry, u: Registry)
    requires Extends(s, t) && Extends(t, u)
    ensures Extends(s, u)
  {
    hide Chain;
  }

  lemma DetachedExtends(s: Registry, p: PeerId)
    ensures Extends(s, Detached(s, p))
  {
    hide Drop, HintAfter, Grown, GatesAfter, DetachedAfter;
    GrownSame(s.gates, s.detached);
    if p in s.channels { GrownByDetach(s.gates, s.detached, p, s.channels[p]); }
  }

  lemma FarewellExtends(s: Registry, p: PeerId, cut: bool)
    ensures Extends(s, Farewell(s, p, cut))
  {
    hide Detached, Grown, GatesAfter, DetachedAfter;
    DetachedExtends(s, p);
    if p in s.channels {
      var d, t := Detached(s, p), Farewell(s, p, cut);
      GrownSame(d.gates, d.detached);
      GrownByDetach(d.gates, d.detached, p, s.channels[p]);
      ExtendsTransitive(s, d, t);
    }
  }

  lemma {:induction false} DetachedEachExtends(s: Registry, ps: seq<PeerId>, cuts: set<PeerId>)
    ensures Extends(s, DetachedEach(s, ps, cuts))
    decreases |ps|
  {
    hide Farewell, Grown;
    if ps == [] {
      GrownSame(s.gates, s.detached);
    } else {
      var t := Farewell(s, ps[0], ps[0] in cuts);
      FarewellExtends(s, ps[0], ps[0] in cuts);
      DetachedEachExtends(t, ps[1..], cuts);
      ExtendsTransitive(s, t, DetachedEach(s, ps, cuts));
    }
  }

  lemma BroadcastToExtends(s: Registry, m: Message, outcome: PeerId -> Outcome, p: PeerId)
    ensures Extends(s, BroadcastTo(s, m, outcome, p))
  {
    hide Grown, Detached, Meaning, Accepted;
    if p in s.channels && p !in s.offline && outcome(p) == Disconnected {
      DetachedExtends(s, p);
    } else {
      GrownSame(s.gates, s.detached);
    }
  }

  lemma {:induction false} BroadcastExtends(s: Registry, m: Message, outcome: PeerId -> Outcome, ps: seq<PeerId>)
    ensures Extends(s, BroadcastOver(s, m, outcome, ps))
    decreases |ps|
  {
    hide Grown, BroadcastTo;
    if ps == [] {
      GrownSame(s.gates, s.detached);
    } else {
      var t := BroadcastTo(s, m, outcome, ps[0]);
      BroadcastToExtends(s, m, outcome, ps[0]);
      BroadcastExtends(t, m, outcome, ps[1..]);
      ExtendsTransitive(s, t, BroadcastOver(s, m, outcome, ps));
    }
  }

  /** A gate entry is deleted only by its own latest generation, once everything chained into it settled. */
  lemma GateDeletedOnlyByItself(s: Registry, step: Step)
    ensures Extends(s, Next(s, step))
            || (step.GateResolves? && step.peer in s.gates && s.gates[step.peer] == step.gate
                && Chain(step.gate) <= s.settled && Next(s, step) == s.(gates := s.gates - {step.peer}))
  {
    hide Attached, Farewell, DetachedEach, Cleared, MarkedOnline, BroadcastOver, Meaning, Chain, GateSettled, Grown;
    GrownSame(s.gates, s.detached);
    match step
    case Attach(p, drains, turnActive, router) => AttachedExtends(s, p, drains, turnActive, router);
    case Detach(p, cut) => FarewellExtends(s, p, cut);
    case DetachAll(cuts) => ClearedExtends(s, cuts);
    case MarkOnline(p, outcome) => MarkedOnlineExtends(s, p, outcome);
    case Broadcast(m, outcome) => BroadcastExtends(s, m, outcome, s.order);
    case GateResolves(p, g) => SettledChain(g, s.settled);
    case _ =>
  }

  lemma AttachedExtends(s: Registry, p: PeerId, drains: bool, turnActive: bool, router: int)
    ensures Extends(s, Attached(s, p, drains, turnActive, router))
  {
    hide Detached, Grown, Short;
    DetachedExtends(s, p);
  }

  lemma ClearedExtends(s: Registry, cuts: set<PeerId>)
    ensures Extends(s, Next(s, DetachAll(cuts)))
  {
    hide DetachedEach, Grown;
    DetachedEachExtends(s, s.order, cuts);
  }

  lemma MarkedOnlineExtends(s: Registry, p: PeerId, outcome: nat -> Outcome)
    ensures Extends(s, MarkedOnline(s, p, outcome))
  {
    hide Flushed, Grown, FlushOf, Contents, KeysOf;
    GrownSame(s.gates, s.detached);
    if p in s.channels {
      FlushedExtends(s, p, s.channels[p], FlushOf(Contents(s.buffers, p), outcome, 0, KeysOf(s.keys, p)));
    }
  }

  lemma FlushedExtends(s: Registry, p: PeerId, c: Channel, f: Flush)
    ensures Extends(s, Flushed(s, p, c, f))
  {
    hide Detached, Grown, WithKeys, Accepted;
    DetachedExtends(s, p);
    GrownSame(s.gates, s.detached);
  }

  lemma {:induction false} DetachedEachSettled(s: Registry, ps: seq<PeerId>, cuts: set<PeerId>)
    ensures DetachedEach(s, ps, cuts).settled == s.settled
    decreases |ps|
  {
    hide Drop, HintAfter, GatesAfter, DetachedAfter;
    if ps != [] { DetachedEachSettled(Farewell(s, ps[0], ps[0] in cuts), ps[1..], cuts); }
  }

  lemma {:induction false} BroadcastSettled(s: Registry, m: Message, outcome: PeerId -> Outcome, ps: seq<PeerId>)
    ensures BroadcastOver(s, m, outcome, ps).settled == s.settled
    decreases |ps|
  {
    hide Meaning, Drop, HintAfter, GatesAfter, DetachedAfter;
    if ps != [] { BroadcastSettled(BroadcastTo(s, m, outcome, ps[0]), m, outcome, ps[1..]); }
  }

  lemma StepSettled(s: Registry, step: Step)
    ensures s.settled <= Next(s, step).settled
  {
    hide DetachedEach, BroadcastOver, Meaning, FlushOf, Contents, Drop, HintAfter, GatesAfter, DetachedAfter, GateSettled;
    match step
    case DetachAll(cuts) => DetachedEachSettled(s, s.order, cuts);
    case Broadcast(m, outcome) => BroadcastSettled(s, m, outcome, s.order);
    case _ =>
  }

  lemma {:induction false} RunSettled(s: Registry, steps: seq<Step>)
    ensures s.settled <= Run(s, steps).settled
    decreases |steps|
  {
    hide Next;
    if steps != [] {
      StepSettled(s, steps[0]);
      RunSettled(Next(s, steps[0]), steps[1..]);
    }
  }

  predicate DetachedBy(s: Registry, p: PeerId, c: Channel) { p in s.detached && c in s.detached[p] }

  /** What the gate entry tells, in any consistent state. */
  predicate GateOpen(s: Registry, p: PeerId) { p !in s.gates || GateSettled(s.gates[p], s.settled) }

  /** Every generation of an owner has settled exactly when the owner has no gate or its gate has settled. */
  lemma SettledIffGateOpen(s: Registry, p: PeerId)
    requires Valid(s)
    ensures AllSettled(s, p) <==> GateOpen(s, p)
  {
    hide Older, Listed, Aged, Inverse, Present, Hinted, Bounded, Tracked, Accepting, Chain, GateSettled;
    if p in s.gates { SettledChain(s.gates[p], s.settled); }
  }

  /** The known-peer lookup comes after the gate and does not look at it again: the generations that had
      settled stay settled, and at its end all have exactly when the gate entry, looked at again, is open. */
  lemma SettledAfterLookup(left: Registry, p: PeerId, lookup: seq<Step>)
    requires Valid(left) && AllSettled(left, p)
    ensures var at := Run(left, lookup);
            && (forall c | DetachedBy(left, p, c) :: c in at.settled)
            && (AllSettled(at, p) <==> GateOpen(at, p))
  {
    hide Run, Valid, GateOpen;
    RunSettled(left, lookup);
    RunValid(left, lookup);
    SettledIffGateOpen(Run(left, lookup), p);
  }

  /** Attached and detached again during the lookup, an owner has an unsettled generation at its end. */
  lemma LookupOutrunsGate(p: PeerId)
    ensures var at := Run(EMPTY_REGISTRY, [Attach(p, true, false, 0)] + [Detach(p, false)]);
            p !in at.channels && !AllSettled(at, p) && !GateOpen(at, p)
  {
    var a := Next(EMPTY_REGISTRY, Attach(p, true, false, 0));
    RunAppends(EMPTY_REGISTRY, [Attach(p, true, false, 0)], Detach(p, false));
    RunAppends(EMPTY_REGISTRY, [], Attach(p, true, false, 0));
    assert [] + [Attach(p, true, false, 0)] == [Attach(p, true, false, 0)];
    assert p in a.channels && a.channels[p] == Channel(0, true);
    assert DetachedBy(Detached(a, p), p, Channel(0, true));
  }

  lemma {:induction false} RunAppends(s: Registry, steps: seq<Step>, step: Step)
    ensures Run(s, steps + [step]) == Next(Run(s, steps), step)
    decreases |steps|
  {
    hide Next;
    if steps == [] {
      assert ([step])[1..] == [];
      assert [] + [step] == [step];
      assert Run(Next(s, step), []) == Next(s, step);
    } else {
      RunAppends(Next(s, steps[0]), steps[1..], step);
      assert (steps + [step])[1..] == steps[1..] + [step];
    }
  }

  /** While a frame waits at its owner's gate, other steps run; now and then the waiting frame may resume. */
  datatype Event = Other(step: Step) | Resumes(current: bool)

  function StepsOf(events: seq<Event>): seq<Step> {
    if events == [] then []
    else StepsOf(events[..|events| - 1]) + (match events[|events| - 1] case Other(step) => [step] case Resumes(_) => [])
  }

  datatype DrainResult = LeftLoop | AlreadyAttached | Stale | StillWaiting

  /** One more event of a schedule. */
  lemma StepsOfAppends(events: seq<Event>, e: Event)
    ensures StepsOf(events + [e]) == if e.Other? then StepsOf(events) + [e.step] else StepsOf(events)
  {
    assert (events + [e])[..|events|] == events;
  }

  // ----- The class ----------------------------------------------------------------------

  /** Adding one key to the insertion-ordered set and evicting the oldest. */
  method AddKey(known: seq<string>, k: string) returns (keys: seq<string>)
    ensures keys == Remembered(known, k)
  {
    keys := if k in known then known else known + [k];
    ghost var added := keys;
    while |keys| > MAX_FLUSHED_KEYS
      invariant |keys| <= |added| && keys == added[|added| - |keys|..]
      invariant |added| > MAX_FLUSHED_KEYS ==> |keys| >= MAX_FLUSHED_KEYS
      invariant |added| <= MAX_FLUSHED_KEYS ==> keys == added
    {
      keys := keys[1..];
    }
  }

  class OwnerMultiplexer {
    var registry: Registry

    constructor ()
      ensures registry == EMPTY_REGISTRY && Valid(registry) && KeysAttached(registry)
    {
      hide Valid;
      EmptyValid();
      registry := EMPTY_REGISTRY;
    }

    /** `trackReattachDrain`: the new gate waits for the old one too. */
    method TrackReattachDrain(peer: PeerId, channel: Channel)
      modifies this
      ensures registry == old(registry).(gates := GatesAfter(old(registry).gates, peer, channel),
                                         detached := DetachedAfter(old(registry).detached, peer, channel))
    {
      var prior := if peer in registry.gates then Some(registry.gates[peer]) else None;
      registry := registry.(gates := registry.gates[peer := Gate(channel, prior)]);
      registry := registry.(detached := DetachedAfter(registry.detached, peer, channel));
    }

    /** `detach` without a reason: forgets the owner everywhere; without a channel it returns early. */
    method Detach(peer: PeerId)
      modifies this
      ensures registry == Detached(old(registry), peer)
      ensures old(Valid(registry)) ==> Valid(registry)
    {
      hide Valid, Drop, Short, GatesAfter, DetachedAfter, HintAfter;
      if Valid(registry) { DetachedValid(registry, peer); }
      if peer !in registry.channels { return; }
      var channel := registry.channels[peer];
      if channel.drains { TrackReattachDrain(peer, channel); }
      Forget(peer, channel);
    }

    /** The deletions of `detach`. */
    method Forget(peer: PeerId, channel: Channel)
      modifies this
      ensures registry == ForgottenBy(old(registry), peer, channel)
    {
      hide Drop, Short;
      registry := registry.(channels := registry.channels - {peer});
      registry := registry.(order := Drop(registry.order, peer));
      registry := registry.(peers := registry.peers - {channel});
      registry := registry.(routers := registry.routers - {channel});
      registry := registry.(late := registry.late - {peer});
      registry := registry.(offline := registry.offline - {peer});
      registry := registry.(buffers := registry.buffers - {peer});
      registry := registry.(keys := registry.keys - {peer});
      registry := registry.(since := registry.since - {peer});
      registry := registry.(sent := registry.sent - {channel});
      if registry.hint == Short(peer) {
        registry := registry.(hint := if |registry.order| > 0 then Short(registry.order[0]) else "");
      }
    }

    /** `detach` with a reason. The farewell's send may disconnect the channel and so re-enter `detach`. */
    method DetachWithReason(peer: PeerId, cut: bool)
      requires Valid(registry)
      modifies this
      ensures registry == Farewell(old(registry), peer, cut) && Valid(registry)
    {
      hide Valid, Detached, Drop, Short, GatesAfter, DetachedAfter, ForgottenBy;
      FarewellValid(registry, peer, cut);
      if peer !in registry.channels || !cut {
        Detach(peer);
        return;
      }
      var channel := registry.channels[peer];
      NothingLeft(registry, peer);
      Detach(peer);
      if channel.drains { TrackReattachDrain(peer, channel); }
      Forget(peer, channel);
    }

    /** `attach`: replaces any earlier channel of the owner by a fresh one. */
    method Attach(peer: PeerId, drains: bool, turnActive: bool, router: int) returns (channel: Channel)
      requires Valid(registry)
      modifies this
      ensures registry == Attached(old(registry), peer, drains, turnActive, router) && Valid(registry)
      ensures peer in registry.channels && registry.channels[peer] == channel && channel !in old(registry).peers
    {
      hide Valid, Drop, Short, Detached;
      AttachedValid(registry, peer, drains, turnActive, router);
      FreshChannel(registry, peer, drains);
      Detach(peer);
      channel := Channel(registry.nextChannelId, drains);
      registry := registry.(nextChannelId := registry.nextChannelId + 1);
      registry := registry.(channels := registry.channels[peer := channel]);
      registry := registry.(order := registry.order + [peer]);
      registry := registry.(peers := registry.peers[channel := peer]);
      registry := registry.(routers := registry.routers[channel := router]);
      registry := registry.(sent := registry.sent[channel := []]);
      registry := registry.(hint := Short(peer));
      if turnActive { registry := registry.(late := registry.late + {peer}); }
    }

    /** `detachAll`. */
    method DetachAll(cuts: set<PeerId>)
      requires Valid(registry)
      modifies this
      ensures registry == Next(old(registry), Step.DetachAll(cuts)) && Valid(registry) && registry.channels == map[]
    {
      hide Valid, Farewell, Cleared;
      DetachAllValid(registry, cuts);
      var peers := registry.order;
      var i := 0;
      assert peers[0..] == peers;
      while i < |peers|
        invariant 0 <= i <= |peers| && Valid(registry)
        invariant DetachedEach(registry, peers[i..], cuts) == DetachedEach(old(registry), peers, cuts)
      {
        assert peers[i..][0] == peers[i] && peers[i..][1..] == peers[i + 1..];
        DetachWithReason(peers[i], peers[i] in cuts);
        i := i + 1;
      }
      Clear();
    }

    method Clear()
      modifies this
      ensures registry == Cleared(old(registry))
    {
      registry := registry.(late := {});
      registry := registry.(offline := {}, since := map[]);
      registry := registry.(buffers := map[]);
      registry := registry.(keys := map[]);
      registry := registry.(hint := "");
    }

    /** `markPeerOffline`. */
    method MarkPeerOffline(peer: PeerId) returns (changed: bool)
      requires Valid(registry)
      modifies this
      ensures registry == MarkedOffline(old(registry), peer) && Valid(registry)
      ensures changed == (peer in registry.channels && peer !in old(registry).offline)
    {
      hide Valid;
      MarkedOfflineValid(registry, peer);
      if peer !in registry.channels || peer in registry.offline { return false; }
      registry := registry.(offline := registry.offline + {peer});
      registry := registry.(late := registry.late - {peer});
      registry := registry.(since := registry.since[peer := []]);
      return true;
    }

    /** `rememberFlushedCompaction`. */
    method RememberFlushedCompaction(peer: PeerId, m: Message)
      modifies this
      ensures registry == old(registry).(keys := Noted(old(registry).keys, peer, m))
    {
      hide Remembered;
      if m.compactionKey.None? { return; }
      var keys := AddKey(KeysOf(registry.keys, peer), m.compactionKey.value);
      registry := registry.(keys := registry.keys[peer := keys]);
    }

    /** The replay loop of `markPeerOnline`. A send that disconnects detaches the owner on the spot, and its
        frame is remembered nevertheless. */
    method Replay(peer: PeerId, outcome: nat -> Outcome)
      requires peer in registry.channels && peer in registry.buffers && peer in registry.offline && registry.channels[peer] in registry.sent
      modifies this
      ensures var s := old(registry);
              Resumed(registry, peer) == ReplayFrom(s, peer, s.channels[peer], Contents(s.buffers, peer), outcome, 0)
    {
      hide Contents, Resumed, ReplayFrom, Pending, Replaying, SendOne;
      ghost var s := registry;
      ghost var frames := Contents(registry.buffers, peer);
      var channel := registry.channels[peer];
      var next, buffer := TakeNext(registry.buffers[peer]);
      TookFirst(registry.buffers, peer, next, buffer);
      registry := registry.(buffers := registry.buffers[peer := buffer]);
      var sends := 0;
      ReplayingFirst(s, peer, frames, outcome, next, buffer);
      while next.Some? && peer in registry.channels && registry.channels[peer] == channel
            && peer in registry.offline && peer in registry.buffers
        invariant Replaying(s, registry, peer, channel, frames, outcome, sends, next, buffer)
        decreases |frames| - sends
      {
        var following, rest := TakeNext(buffer);
        ReplayingNext(s, registry, peer, channel, frames, outcome, sends, next, buffer, following, rest);
        SendNext(peer, channel, next.value, outcome(sends));
        next, buffer := following, rest;
        if peer in registry.channels { registry := registry.(buffers := registry.buffers[peer := buffer]); }
        sends := sends + 1;
      }
      ReplayingLast(s, registry, peer, channel, frames, outcome, sends, next, buffer);
    }

    /** One send of the replay. */
    method SendNext(peer: PeerId, channel: Channel, m: Message, outcome: Outcome)
      modifies this
      ensures registry == SendOne(old(registry), peer, channel, m, outcome)
    {
      hide Detached, Noted;
      match outcome {
        case Disconnected => {
          Detach(peer);
          RememberFlushedCompaction(peer, m);
        }
        case Threw => { }
        case Delivered => {
          registry := registry.(sent := Accepted(registry.sent, channel, [m]));
          RememberFlushedCompaction(peer, m);
        }
      }
    }

    /** `markPeerOnline`: replays the buffer, completed frames first, then lifts the suspension. */
    method MarkPeerOnline(peer: PeerId, outcome: nat -> Outcome) returns (wasOffline: bool)
      requires Valid(registry)
      modifies this
      ensures registry == MarkedOnline(old(registry), peer, outcome) && Valid(registry)
      ensures wasOffline == (peer in old(registry).offline)
    {
      hide Valid, Detached, Contents, Resumed, ReplayFrom, FlushOf, Flushed;
      MarkedOnlineValid(registry, peer, outcome);
      if peer !in registry.offline { return false; }
      if peer in registry.channels {
        ValidSent(registry, peer);
        ReplayIsMarkedOnline(registry, peer, outcome);
        if peer in registry.buffers { Replay(peer, outcome); }
      }
      Resume(peer);
      return true;
    }

    method Resume(peer: PeerId)
      modifies this
      ensures registry == Resumed(old(registry), peer)
    {
      registry := registry.(buffers := registry.buffers - {peer});
      registry := registry.(offline := registry.offline - {peer});
      registry := registry.(since := registry.since - {peer});
    }

    /** `bufferOfflineMessage`. */
    method BufferOfflineMessage(peer: PeerId, m: Message)
      requires Valid(registry) && peer in registry.offline
      modifies this
      ensures peer in old(registry).since
      ensures var h := old(registry).since[peer] + [Sent(m)];
              registry == old(registry).(buffers := old(registry).buffers[peer := Meaning(h)], since := old(registry).since[peer := h])
    {
      hide Valid, Meaning, Frames;
      ValidTracks(registry, peer);
      var h := registry.since[peer];
      var buffer := if peer in registry.buffers then registry.buffers[peer] else EMPTY;
      if peer !in registry.buffers { NoFramesNoContents(h); }
      buffer := BufferMessage(buffer, m, h);
      registry := registry.(buffers := registry.buffers[peer := buffer]);
      registry := registry.(since := registry.since[peer := h + [Sent(m)]]);
    }

    /** `broadcast`: offline owners buffer, online ones are sent to; a disconnecting send detaches its owner. */
    method Broadcast(m: Message, outcome: PeerId -> Outcome)
      requires Valid(registry)
      modifies this
      ensures registry == Next(old(registry), Step.Broadcast(m, outcome)) && Valid(registry)
    {
      hide Valid, Detached, Meaning;
      var visiting := registry.order;
      var i := 0;
      assert visiting[0..] == visiting;
      while i < |visiting|
        invariant 0 <= i <= |visiting| && Valid(registry)
        invariant BroadcastOver(registry, m, outcome, visiting[i..]) == BroadcastOver(old(registry), m, outcome, visiting)
      {
        assert visiting[i..][0] == visiting[i] && visiting[i..][1..] == visiting[i + 1..];
        SendOrBuffer(visiting[i], m, outcome);
        i := i + 1;
      }
    }

    /** One owner's part of `broadcast`. */
    method SendOrBuffer(p: PeerId, m: Message, outcome: PeerId -> Outcome)
      requires Valid(registry)
      modifies this
      ensures registry == BroadcastTo(old(registry), m, outcome, p) && Valid(registry)
    {
      hide Valid, Detached, Meaning;
      BroadcastToValid(registry, m, outcome, p);
      if p in registry.channels {
        var channel := registry.channels[p];
        if p in registry.offline {
          BufferOfflineMessage(p, m);
        } else {
          ValidSent(registry, p);
          match outcome(p) {
            case Disconnected => { Detach(p); }
            case Threw => { }
            case Delivered => { registry := registry.(sent := registry.sent[channel := registry.sent[channel] + [m]]); }
          }
        }
      }
    }

    /** `completeOfflineTurn`: every offline owner's open interval is sealed. */
    method CompleteOfflineTurn()
      requires Valid(registry)
      modifies this
      ensures registry == TurnCompleted(old(registry)) && Valid(registry)
    {
      hide Valid, Meaning, Frames;
      TurnCompletedValid(registry);
      var todo := registry.buffers.Keys;
      while todo != {}
        invariant todo <= registry.buffers.Keys == old(registry).buffers.Keys
        invariant forall p | p in todo :: registry.buffers[p] == old(registry).buffers[p]
        invariant forall p | p in registry.buffers && p !in todo ::
                    p in registry.since && registry.buffers[p] == Meaning(registry.since[p] + [TurnEnd])
        invariant registry == old(registry).(buffers := registry.buffers)
        decreases todo
      {
        var p :| p in todo;
        ValidBuffered(old(registry), p);
        var buffer := SealTurn(registry.buffers[p], registry.since[p]);
        registry := registry.(buffers := registry.buffers[p := buffer]);
        todo := todo - {p};
      }
      assert registry.buffers == TurnCompleted(old(registry)).buffers;
      registry := registry.(since := map p | p in registry.since :: registry.since[p] + [TurnEnd]);
    }

    /** `routeFrom`: frames of a replaced channel are dropped; a `session_sync` supersedes the offline buffer. */
    method RouteFrom(channel: Channel, isSessionSync: bool) returns (router: Option<int>)
      requires Valid(registry)
      modifies this
      ensures registry == (if isSessionSync then Synced(old(registry), channel) else old(registry)) && Valid(registry)
      ensures router == if channel in old(registry).routers then Some(old(registry).routers[channel]) else None
    {
      hide Valid, FlushOf, Detached, MarkedOnline, Resumed;
      ValidRouted(registry, channel);
      if channel !in registry.peers { return None; }
      var peer := registry.peers[channel];
      if registry.channels[peer] != channel { return None; }
      router := Some(registry.routers[channel]);
      if isSessionSync && peer in registry.offline {
        Superseded(registry, peer, i => Delivered);
        registry := registry.(buffers := registry.buffers - {peer});
        registry := registry.(since := registry.since[peer := []]);
        var _ := MarkPeerOnline(peer, i => Delivered);
      }
    }

    /** `lateAttachTargets`: each late owner's channel once, and the set is consumed. */
    method LateAttachTargets() returns (targets: set<Channel>)
      requires Valid(registry)
      modifies this
      ensures registry == Next(old(registry), TakeLateTargets) && Valid(registry)
      ensures old(registry).late <= registry.channels.Keys
      ensures targets == set p | p in old(registry).late && p in registry.channels :: registry.channels[p]
    {
      hide Listed, Aged, Inverse, Hinted, Bounded, Gated, Tracked, Older, Accepting;
      targets := set p | p in registry.late && p in registry.channels :: registry.channels[p];
      registry := registry.(late := {});
    }

    // ----- Gates ---------------------------------------------------------------------

    /** The continuation of a resolved gate: it clears the entry only if it is still the owner's gate. */
    method GateResolved(peer: PeerId, gate: Gate)
      requires GateSettled(gate, registry.settled)
      modifies this
      ensures registry == GateCleared(old(registry), peer, gate)
    {
      if peer in registry.gates && registry.gates[peer] == gate {
        registry := registry.(gates := registry.gates - {peer});
      }
    }

    /** Anything else that may run between two turns of a waiting frame. */
    method Perform(step: Step)
      requires Valid(registry)
      modifies this
      ensures registry == Next(old(registry), step) && Valid(registry)
    {
      hide Valid, Attached, Farewell, DetachedEach, Cleared, MarkedOffline, MarkedOnline, BroadcastOver, TurnCompleted, Resumed, GateSettled;
      StepValid(registry, step);
      match step {
        case Attach(p, drains, turnActive, router) => { var _ := Attach(p, drains, turnActive, router); }
        case Detach(p, cut) => { DetachWithReason(p, cut); }
        case DetachAll(cuts) => { DetachAll(cuts); }
        case MarkOffline(p) => { var _ := MarkPeerOffline(p); }
        case MarkOnline(p, outcome) => { var _ := MarkPeerOnline(p, outcome); }
        case SessionSync(c) => { var _ := RouteFrom(c, true); }
        case Broadcast(m, outcome) => { Broadcast(m, outcome); }
        case CompleteTurn => { CompleteOfflineTurn(); }
        case TakeLateTargets => { var _ := LateAttachTargets(); }
        case Settles(c) => { registry := registry.(settled := registry.settled + {c}); }
        case GateResolves(p, g) => { if GateSettled(g, registry.settled) { GateResolved(p, g); } }
      }
    }

    /** The attachment check and drain loop of `handleOuterFrame`, against any schedule of what else happens meanwhile. When it
        leaves the loop to attach, every generation of the owner detached so far has settled. */
    method AwaitDrain(peer: PeerId, schedule: seq<Event>) returns (r: DrainResult, used: nat)
      requires Valid(registry)
      modifies this
      ensures used <= |schedule| && registry == Run(old(registry), StepsOf(schedule[..used])) && Valid(registry)
      ensures r == LeftLoop ==> peer !in registry.channels && peer !in registry.gates && AllSettled(registry, peer)
      ensures r == AlreadyAttached ==> peer in registry.channels
      ensures r == StillWaiting ==> used == |schedule|
    {
      hide Valid, Next, GateSettled, Run, StepsOf;
      used := 0;
      NothingRun(registry);
      assert schedule[..0] == [];
      if peer in registry.channels { return AlreadyAttached, used; }
      if peer !in registry.gates {
        NoGateAllSettled(registry, peer);
        return LeftLoop, used;
      }
      var awaited := registry.gates[peer];
      while used < |schedule|
        invariant used <= |schedule| && Valid(registry) && registry == Run(old(registry), StepsOf(schedule[..used]))
      {
        var event := schedule[used];
        assert schedule[..used + 1] == schedule[..used] + [event];
        StepsOfAppends(schedule[..used], event);
        used := used + 1;
        if event.Other? {
          RunAppends(old(registry), StepsOf(schedule[..used - 1]), event.step);
          Perform(event.step);
        } else if GateSettled(awaited, registry.settled) {
          if !event.current { return Stale, used; }
          if peer in registry.channels { return AlreadyAttached, used; }
          if peer !in registry.gates {
            NoGateAllSettled(registry, peer);
            return LeftLoop, used;
          }
          awaited := registry.gates[peer];
        }
      }
      return StillWaiting, used;
    }

    /** `handleOuterFrame` for a frame of an established owner: the gate, then the known-peer lookup with the
        steps that run during it, then the attach. */
    method AttachKnown(peer: PeerId, schedule: seq<Event>, lookup: seq<Step>, keyed: bool, current: bool,
                       drains: bool, turnActive: bool, router: int)
      returns (attached: bool, ghost left: Registry, ghost at: Registry)
      requires Valid(registry)
      modifies this
      ensures Valid(registry)
      ensures attached ==> keyed && current && peer !in left.channels && AllSettled(left, peer)
      ensures attached ==> at == Run(left, lookup) && peer !in at.channels
                           && registry == Attached(at, peer, drains, turnActive, router)
      ensures attached ==> forall c | DetachedBy(left, peer, c) :: c in at.settled
      ensures attached ==> (AllSettled(at, peer) <==> GateOpen(at, peer))
    {
      hide Valid, Next, Run, AllSettled, Attached, GateOpen;
      var r, _ := AwaitDrain(peer, schedule);
      left, at := registry, registry;
      if r != LeftLoop { return false, left, at; }
      var i := 0;
      NothingRun(left);
      assert lookup[..0] == [];
      while i < |lookup|
        invariant 0 <= i <= |lookup| && Valid(registry) && registry == Run(left, lookup[..i])
      {
        LookupGoesOn(left, lookup, i);
        Perform(lookup[i]);
        i := i + 1;
      }
      assert lookup[..|lookup|] == lookup;
      at := registry;
      SettledAfterLookup(left, peer, lookup);
      if !current || peer in registry.channels || !keyed { return false, left, at; }
      var _ := Attach(peer, drains, turnActive, router);
      attached := true;
    }
  }

  lemma LookupGoesOn(s: Registry, steps: seq<Step>, i: nat)
    requires i < |steps|
    ensures Run(s, steps[..i + 1]) == Next(Run(s, steps[..i]), steps[i])
  {
    hide Run, Next;
    assert steps[..i + 1] == steps[..i] + [steps[i]];
    RunAppends(s, steps[..i], steps[i]);
  }

  /** After a detach there is nothing of the owner left to forget. */
  lemma NothingLeft(s: Registry, p: PeerId)
    requires p in s.channels
    ensures var c, d := s.channels[p], Detached(s, p);
            && ForgottenBy(d, p, c) == d
            && forall gates, detached :: ForgottenBy(d.(gates := gates, detached := detached), p, c) == d.(gates := gates, detached := detached)
  {
    hide GatesAfter, DetachedAfter;
    var c, d := s.channels[p], Detached(s, p);
    DropAbsent(d.order, p);
    assert d.channels - {p} == d.channels && d.peers - {c} == d.peers && d.routers - {c} == d.routers;
    assert d.late - {p} == d.late && d.offline - {p} == d.offline && d.buffers - {p} == d.buffers;
    assert d.keys - {p} == d.keys && d.since - {p} == d.since && d.sent - {c} == d.sent;
    assert HintAfter(d.hint, p, d.order) == d.hint;
  }

  lemma NothingRun(s: Registry)
    ensures Run(s, StepsOf([])) == s && Run(s, []) == s
  {
  }

  lemma FreshChannel(s: Registry, p: PeerId, drains: bool)
    requires Valid(s)
    ensures Detached(s, p).nextChannelId == s.nextChannelId && Channel(s.nextChannelId, drains) !in s.peers
  {
    hide Listed, Aged, Inverse, Present, Hinted, Bounded, Gated, Tracked, Accepting;
  }

  lemma ValidTracks(s: Registry, p: PeerId)
    requires Valid(s) && p in s.offline
    ensures p in s.channels && Tracks(s.buffers, s.since, p)
  {
    hide Older, Listed, Aged, Inverse, Hinted, Bounded, Gated, Accepting, Tracks;
  }

  lemma ValidBuffered(s: Registry, p: PeerId)
    requires Valid(s) && p in s.buffers
    ensures p in s.since && s.buffers[p] == Meaning(s.since[p])
  {
    hide Older, Listed, Aged, Inverse, Hinted, Bounded, Gated, Accepting, Meaning;
    assert Tracks(s.buffers, s.since, p);
  }

  lemma ValidRouted(s: Registry, c: Channel)
    requires Valid(s)
    ensures c in s.peers <==> c in s.routers
    ensures c in s.peers ==> s.peers[c] in s.channels && s.channels[s.peers[c]] == c
  {
    hide Older, Listed, Aged, Present, Hinted, Bounded, Gated, Tracked, Accepting;
  }

  // ----- The replay loop and the flush ------------------------------------------------

  function Noted(keys: map<PeerId, seq<string>>, p: PeerId, m: Message): map<PeerId, seq<string>> {
    if m.compactionKey.None? then keys else keys[p := RememberFrame(KeysOf(keys, p), m)]
  }

  function SendOne(s: Registry, p: PeerId, c: Channel, m: Message, outcome: Outcome): Registry {
    match outcome
    case Disconnected => var d := Detached(s, p); d.(keys := Noted(d.keys, p, m))
    case Threw => s
    case Delivered => s.(sent := Accepted(s.sent, c, [m]), keys := Noted(s.keys, p, m))
  }

  /** The rest of a replay, from the frame at `from`. */
  ghost function ReplayFrom(s: Registry, p: PeerId, c: Channel, frames: seq<Message>, outcome: nat -> Outcome, from: nat): Registry
    requires from <= |frames|
    decreases |frames| - from
  {
    if from == |frames| then Resumed(s, p)
    else
      var t := SendOne(s, p, c, frames[from], outcome(from));
      if outcome(from) == Disconnected then Resumed(t, p) else ReplayFrom(t, p, c, frames, outcome, from + 1)
  }

  /** The next frame and the rest of the buffer are what remains of `frames`. */
  ghost predicate Pending(frames: seq<Message>, from: nat, next: Option<Message>, rest: Buffer) {
    && from <= |frames|
    && next == (if from == |frames| then None else Some(frames[from]))
    && Messages(rest.completed + rest.current) == if from == |frames| then [] else frames[from + 1..]
  }

  /** The replay loop's invariant: either the owner has been detached and the replay is over, or the
      registry is as it was but for the partly drained buffer, the keys and the accepted frames. */
  ghost predicate Replaying(s: Registry, r: Registry, p: PeerId, c: Channel, frames: seq<Message>, outcome: nat -> Outcome,
                            sends: nat, next: Option<Message>, buffer: Buffer) {
    && sends <= |frames|
    && if p !in r.channels then Resumed(r, p) == ReplayFrom(s, p, c, frames, outcome, 0)
       else
         var now := s.(keys := r.keys, sent := r.sent);
         && r == now.(buffers := s.buffers[p := buffer]) && r.channels[p] == c && p in r.offline
         && Pending(frames, sends, next, buffer)
         && ReplayFrom(now, p, c, frames, outcome, sends) == ReplayFrom(s, p, c, frames, outcome, 0)
  }

  lemma ReplayingFirst(s: Registry, p: PeerId, frames: seq<Message>, outcome: nat -> Outcome, next: Option<Message>, buffer: Buffer)
    requires p in s.channels && p in s.offline && Pending(frames, 0, next, buffer)
    ensures Replaying(s, s.(buffers := s.buffers[p := buffer]), p, s.channels[p], frames, outcome, 0, next, buffer)
  {
    hide ReplayFrom, Pending;
    assert s.(keys := s.keys, sent := s.sent) == s;
  }

  lemma SendOneDrained(s: Registry, p: PeerId, c: Channel, m: Message, outcome: Outcome, b: Buffer)
    requires p in s.channels
    ensures var r := SendOne(s.(buffers := s.buffers[p := b]), p, c, m, outcome);
            if outcome == Disconnected then r == SendOne(s, p, c, m, outcome) && p !in r.channels
            else r == SendOne(s, p, c, m, outcome).(buffers := s.buffers[p := b])
    ensures var t := SendOne(s, p, c, m, outcome);
            outcome != Disconnected ==> t == s.(keys := t.keys, sent := t.sent)
  {
    hide Noted, Accepted, Drop, HintAfter, GatesAfter, DetachedAfter;
    assert s.buffers[p := b] - {p} == s.buffers - {p};
  }

  lemma ReplayingNext(s: Registry, r: Registry, p: PeerId, c: Channel, frames: seq<Message>, outcome: nat -> Outcome, sends: nat,
                      next: Option<Message>, buffer: Buffer, next': Option<Message>, buffer': Buffer)
    requires Replaying(s, r, p, c, frames, outcome, sends, next, buffer) && p in r.channels && next.Some?
    requires Took(buffer, next', buffer')
    ensures sends < |frames|
    ensures var t := SendOne(r, p, c, next.value, outcome(sends));
            var u := if p in t.channels then t.(buffers := t.buffers[p := buffer']) else t;
            Replaying(s, u, p, c, frames, outcome, sends + 1, next', buffer')
  {
    hide SendOne, Resumed, Took;
    var now := s.(keys := r.keys, sent := r.sent);
    var m := next.value;
    assert m == frames[sends];
    SendOneDrained(now, p, c, m, outcome(sends), buffer);
    var t := SendOne(now, p, c, m, outcome(sends));
    if outcome(sends) != Disconnected {
      TookNext(frames, sends, next, buffer, next', buffer');
      assert s.buffers[p := buffer][p := buffer'] == s.buffers[p := buffer'];
      assert t == s.(keys := t.keys, sent := t.sent);
    }
  }

  lemma ReplayingLast(s: Registry, r: Registry, p: PeerId, c: Channel, frames: seq<Message>, outcome: nat -> Outcome, sends: nat,
                      next: Option<Message>, buffer: Buffer)
    requires Replaying(s, r, p, c, frames, outcome, sends, next, buffer)
    requires next.None? || p !in r.channels || r.channels[p] != c || p !in r.offline || p !in r.buffers
    ensures Resumed(r, p) == ReplayFrom(s, p, c, frames, outcome, 0)
  {
    if p in r.channels {
      assert s.buffers[p := buffer] - {p} == s.buffers - {p};
    }
  }

  /** What taking the next buffered frame leaves. */
  ghost predicate Took(buffer: Buffer, next: Option<Message>, rest: Buffer) {
    var all := buffer.completed + buffer.current;
    && next == (if all == [] then None else Some(all[0].message))
    && rest.completed + rest.current == (if all == [] then [] else all[1..])
  }

  lemma TookFirst(buffers: map<PeerId, Buffer>, p: PeerId, next: Option<Message>, rest: Buffer)
    requires p in buffers && Took(buffers[p], next, rest)
    ensures Pending(Contents(buffers, p), 0, next, rest)
  {
    var all := buffers[p].completed + buffers[p].current;
    if all != [] { assert Messages(all[1..]) == Messages(all)[1..]; }
  }

  lemma TookNext(frames: seq<Message>, from: nat, next: Option<Message>, buffer: Buffer,
                 next': Option<Message>, buffer': Buffer)
    requires Pending(frames, from, next, buffer) && next.Some? && Took(buffer, next', buffer')
    ensures Pending(frames, from + 1, next', buffer')
  {
    var all := buffer.completed + buffer.current;
    assert Messages(all) == frames[from + 1..];
    if all != [] {
      assert Messages(all)[0] == frames[from + 1];
      assert Messages(all[1..]) == Messages(all)[1..] == frames[from + 2..];
    }
  }

  lemma {:induction false} FlushKeepsSomeKey(frames: seq<Message>, outcome: nat -> Outcome, from: nat, keys: seq<string>)
    requires from <= |frames| && keys != []
    ensures var f := FlushOf(frames, outcome, from, keys); !f.disconnected ==> f.keys != []
    decreases |frames| - from
  {
    if from < |frames| && outcome(from) != Disconnected {
      FlushKeepsSomeKey(frames, outcome, from + 1, if outcome(from) == Threw then keys else RememberFrame(keys, frames[from]));
    }
  }

  lemma SentTwice(sent: map<Channel, seq<Message>>, c: Channel, m: Message, ms: seq<Message>)
    ensures Accepted(Accepted(sent, c, [m]), c, ms) == Accepted(sent, c, [m] + ms)
    ensures Accepted(sent, c, []) == sent && Accepted(sent, c, [m]) - {c} == sent - {c}
  {
    if c in sent {
      assert sent[c] + [] == sent[c];
      ConcatAssociates(sent[c], [m], ms);
    }
  }

  lemma NotedTwice(keys: map<PeerId, seq<string>>, p: PeerId, m: Message, ks: seq<string>)
    requires p in keys ==> keys[p] != []
    ensures Noted(keys, p, m) - {p} == keys - {p} && KeysOf(Noted(keys, p, m), p) == RememberFrame(KeysOf(keys, p), m)
    ensures p in Noted(keys, p, m) ==> Noted(keys, p, m)[p] != []
    ensures ks != [] ==> WithKeys(Noted(keys, p, m), p, ks) == WithKeys(keys, p, ks)
    ensures RememberFrame(KeysOf(keys, p), m) == [] ==> Noted(keys, p, m) == keys
    ensures WithKeys(keys, p, KeysOf(keys, p)) == keys
    ensures Noted(keys - {p}, p, m) == WithKeys(keys - {p}, p, RememberFrame([], m))
  {
  }

  lemma DetachedWith(s: Registry, p: PeerId, keys: map<PeerId, seq<string>>, sent: map<Channel, seq<Message>>)
    requires p in s.channels && keys - {p} == s.keys - {p} && sent - {s.channels[p]} == s.sent - {s.channels[p]}
    ensures Detached(s.(keys := keys, sent := sent), p) == Detached(s, p)
  {
    hide Drop, HintAfter, GatesAfter, DetachedAfter;
  }

  lemma DetachedIsResumed(s: Registry, p: PeerId, keys: map<PeerId, seq<string>>)
    requires p in s.channels
    ensures var d := Detached(s, p).(keys := keys); Resumed(d, p) == d
  {
    hide Drop, HintAfter, GatesAfter, DetachedAfter;
    assert s.offline - {p} - {p} == s.offline - {p};
    assert s.buffers - {p} - {p} == s.buffers - {p};
    assert s.since - {p} - {p} == s.since - {p};
  }

  /** The replay loop does what the flush describes. */
  lemma {:induction false} ReplayIsFlush(s: Registry, p: PeerId, c: Channel, frames: seq<Message>, outcome: nat -> Outcome, from: nat)
    requires p in s.channels && s.channels[p] == c && from <= |frames| && (p in s.keys ==> s.keys[p] != [])
    ensures ReplayFrom(s, p, c, frames, outcome, from) == Flushed(s, p, c, FlushOf(frames, outcome, from, KeysOf(s.keys, p)))
    decreases |frames| - from
  {
    hide Detached, Resumed, Noted, WithKeys, Accepted, KeysOf, RememberFrame;
    var keys := KeysOf(s.keys, p);
    var f := FlushOf(frames, outcome, from, keys);
    if from == |frames| {
      NotedTwice(s.keys, p, Message(0, None, None), []);
      SentTwice(s.sent, c, Message(0, None, None), []);
    } else {
      var m := frames[from];
      NotedTwice(s.keys, p, m, f.keys);
      SentTwice(s.sent, c, m, []);
      match outcome(from)
      case Disconnected =>
        DetachedKeys(s, p);
        DetachedIsResumed(s, p, Noted(Detached(s, p).keys, p, m));
      case Threw => ReplayIsFlush(s, p, c, frames, outcome, from + 1);
      case Delivered => ReplayOneMore(s, p, c, frames, outcome, from);
    }
  }

  lemma DetachedKeys(s: Registry, p: PeerId)
    requires p in s.channels
    ensures Detached(s, p).keys == s.keys - {p}
  {
  }

  lemma {:induction false} ReplayOneMore(s: Registry, p: PeerId, c: Channel, frames: seq<Message>, outcome: nat -> Outcome, from: nat)
    requires p in s.channels && s.channels[p] == c && from < |frames| && (p in s.keys ==> s.keys[p] != [])
    requires outcome(from) == Delivered
    ensures ReplayFrom(s, p, c, frames, outcome, from) == Flushed(s, p, c, FlushOf(frames, outcome, from, KeysOf(s.keys, p)))
    decreases |frames| - from, 0
  {
    hide Detached, Resumed, Noted, WithKeys, Accepted, KeysOf, RememberFrame;
    var m := frames[from];
    var keys, sent := Noted(s.keys, p, m), Accepted(s.sent, c, [m]);
    var rest := FlushOf(frames, outcome, from + 1, RememberFrame(KeysOf(s.keys, p), m));
    NotedTwice(s.keys, p, m, rest.keys);
    SentTwice(s.sent, c, m, rest.delivered);
    ReplayIsFlush(s.(sent := sent, keys := keys), p, c, frames, outcome, from + 1);
    if rest.disconnected {
      DetachedWith(s, p, keys, sent);
    } else {
      if RememberFrame(KeysOf(s.keys, p), m) != [] {
        FlushKeepsSomeKey(frames, outcome, from + 1, RememberFrame(KeysOf(s.keys, p), m));
      }
    }
  }

  lemma ReplayIsMarkedOnline(s: Registry, p: PeerId, outcome: nat -> Outcome)
    requires Valid(s) && p in s.channels && p in s.offline
    ensures MarkedOnline(s, p, outcome) == ReplayFrom(s, p, s.channels[p], Contents(s.buffers, p), outcome, 0)
    ensures p !in s.buffers ==> MarkedOnline(s, p, outcome) == Resumed(s, p)
  {
    hide Valid, Flushed, FlushOf, KeysOf, Resumed;
    ValidKeysSome(s, p);
    ReplayIsFlush(s, p, s.channels[p], Contents(s.buffers, p), outcome, 0);
  }

  lemma ValidKeysSome(s: Registry, p: PeerId)
    requires Valid(s)
    ensures p in s.keys ==> s.keys[p] != []
  {
    hide Older, Listed, Aged, Inverse, Present, Hinted, Gated, Tracked, Accepting, Distinct;
  }

  /** Dropping the buffer and coming online is just coming online with nothing to replay. */
  lemma Superseded(s: Registry, p: PeerId, outcome: nat -> Outcome)
    requires Valid(s) && p in s.offline
    ensures var d := s.(buffers := s.buffers - {p}, since := s.since[p := []]);
            Valid(d) && MarkedOnline(d, p, outcome) == Resumed(s, p)
  {
    hide Valid, MarkedOnline;
    var d := s.(buffers := s.buffers - {p}, since := s.since[p := []]);
    UnbufferedValid(s, p);
    ValidTracks(d, p);
    ReplayIsMarkedOnline(d, p, outcome);
    assert s.buffers - {p} - {p} == s.buffers - {p};
    assert s.since[p := []] - {p} == s.since - {p};
  }

  lemma UnbufferedValid(s: Registry, p: PeerId)
    requires Valid(s) && p in s.offline
    ensures Valid(s.(buffers := s.buffers - {p}, since := s.since[p := []]))
  {
    hide Older, Listed, Aged, Inverse, Hinted, Bounded, Gated, Accepting, Meaning;
    var buffers, since := s.buffers - {p}, s.since[p := []];
    forall q | q in s.offline ensures Tracks(buffers, since, q) { assert Tracks(s.buffers, s.since, q); }
  }

  // ----- Parts of the registry, step by step ------------------------------------------

  lemma TrackedSealed(offline: set<PeerId>, before: map<PeerId, Buffer>, since: map<PeerId, seq<Happening>>,
                      after: map<PeerId, Buffer>)
    requires Tracked(offline, before, since) && after.Keys == before.Keys
    requires forall p | p in after :: p in since && after[p] == Meaning(since[p] + [TurnEnd])
    ensures Tracked(offline, after, map p | p in since :: since[p] + [TurnEnd])
  {
    var sealed := map p | p in since :: since[p] + [TurnEnd];
    forall p | p in offline ensures Tracks(after, sealed, p) {
      assert Tracks(before, since, p);
      AfterTurnEnd(since[p]);
    }
  }

  lemma PresentSameKeys(channels: map<PeerId, Channel>, offline: set<PeerId>, late: set<PeerId>,
                        before: map<PeerId, Buffer>, after: map<PeerId, Buffer>)
    requires Present(channels, offline, late, before) && after.Keys == before.Keys
    ensures Present(channels, offline, late, after)
  {
  }

  lemma ListedRemoved(order: seq<PeerId>, channels: map<PeerId, Channel>, peer: PeerId)
    requires Listed(order, channels)
    ensures Listed(Drop(order, peer), channels - {peer})
  {
    DropDistinct(order, peer);
  }

  lemma {:induction false} AgedRemoved(order: seq<PeerId>, channels: map<PeerId, Channel>, peer: PeerId)
    requires Aged(order, channels) && (forall p | p in order :: p in channels)
    ensures Aged(Drop(order, peer), channels - {peer})
  {
    if order != [] {
      var h, t := order[0], order[1..];
      assert forall i, j | 0 <= i < j < |t| :: t[i] == order[i + 1] && t[j] == order[j + 1];
      AgedRemoved(t, channels, peer);
      if h != peer {
        var d := Drop(t, peer);
        forall j | 0 <= j < |d| ensures d[j] in channels - {peer} && channels[h].id < channels[d[j]].id {
          assert d[j] in d;
          var k :| 0 <= k < |t| && t[k] == d[j];
          assert order[k + 1] == d[j];
        }
        assert Drop(order, peer) == [h] + d;
      }
    }
  }

  lemma AgedAdded(order: seq<PeerId>, channels: map<PeerId, Channel>, peers: map<Channel, PeerId>, routers: map<Channel, int>,
                  id: nat, peer: PeerId, c: Channel)
    requires Listed(order, channels) && Aged(order, channels) && Inverse(channels, peers, routers) && Older(peers, id)
    requires peer !in channels && c.id == id
    ensures Aged(order + [peer], channels[peer := c])
  {
    var all := order + [peer];
    forall i, j | 0 <= i < j < |all|
      ensures all[i] in channels[peer := c] && all[j] in channels[peer := c]
              && channels[peer := c][all[i]].id < channels[peer := c][all[j]].id
    {
      assert all[i] == order[i] && order[i] in order;
      if j < |order| { assert all[j] == order[j] && order[j] in order; }
    }
  }

  lemma ListedAdded(order: seq<PeerId>, channels: map<PeerId, Channel>, peer: PeerId, c: Channel)
    requires Listed(order, channels) && peer !in channels
    ensures Listed(order + [peer], channels[peer := c])
  {
  }

  lemma InverseRemoved(channels: map<PeerId, Channel>, peers: map<Channel, PeerId>, routers: map<Channel, int>,
                       peer: PeerId, id: nat)
    requires Inverse(channels, peers, routers) && Older(peers, id) && peer in channels
    ensures var c := channels[peer];
            Inverse(channels - {peer}, peers - {c}, routers - {c}) && Older(peers - {c}, id) && c in peers
  {
  }

  lemma InverseAdded(channels: map<PeerId, Channel>, peers: map<Channel, PeerId>, routers: map<Channel, int>,
                     peer: PeerId, c: Channel, router: int, id: nat)
    requires Inverse(channels, peers, routers) && Older(peers, id) && peer !in channels && c.id == id
    ensures Inverse(channels[peer := c], peers[c := peer], routers[c := router]) && Older(peers[c := peer], id + 1)
    ensures c !in peers
  {
  }

  lemma PresentRemoved(channels: map<PeerId, Channel>, offline: set<PeerId>, late: set<PeerId>,
                       buffers: map<PeerId, Buffer>, peer: PeerId)
    requires Present(channels, offline, late, buffers)
    ensures Present(channels - {peer}, offline - {peer}, late - {peer}, buffers - {peer})
  {
  }

  lemma PresentAdded(channels: map<PeerId, Channel>, offline: set<PeerId>, late: set<PeerId>,
                     buffers: map<PeerId, Buffer>, peer: PeerId, c: Channel, turnActive: bool)
    requires Present(channels, offline, late, buffers) && peer !in channels
    ensures Present(channels[peer := c], offline, if turnActive then late + {peer} else late, buffers)
    ensures peer !in late && peer !in offline
  {
  }

  lemma PresentOffline(channels: map<PeerId, Channel>, offline: set<PeerId>, late: set<PeerId>,
                       buffers: map<PeerId, Buffer>, peer: PeerId)
    requires Present(channels, offline, late, buffers) && peer in channels
    ensures Present(channels, offline + {peer}, late - {peer}, buffers)
  {
  }

  lemma PresentBuffered(channels: map<PeerId, Channel>, offline: set<PeerId>, late: set<PeerId>,
                        buffers: map<PeerId, Buffer>, peer: PeerId, b: Buffer)
    requires Present(channels, offline, late, buffers) && peer in offline
    ensures Present(channels, offline, late, buffers[peer := b])
  {
  }

  lemma BoundedRemoved(keys: map<PeerId, seq<string>>, peer: PeerId)
    requires Bounded(keys)
    ensures Bounded(keys - {peer})
  {
  }

  lemma HintedAdded(channels: map<PeerId, Channel>, peer: PeerId, c: Channel)
    ensures Hinted(channels[peer := c], Short(peer))
  {
    assert peer in channels[peer := c];
  }

  lemma TrackedRemoved(offline: set<PeerId>, buffers: map<PeerId, Buffer>, since: map<PeerId, seq<Happening>>, peer: PeerId)
    requires Tracked(offline, buffers, since)
    ensures Tracked(offline - {peer}, buffers - {peer}, since - {peer})
  {
    forall p | p in offline - {peer} ensures Tracks(buffers - {peer}, since - {peer}, p) {
      assert Tracks(buffers, since, p);
    }
  }

  lemma TrackedAdded(offline: set<PeerId>, buffers: map<PeerId, Buffer>, since: map<PeerId, seq<Happening>>,
                     late: set<PeerId>, channels: map<PeerId, Channel>, peer: PeerId)
    requires Tracked(offline, buffers, since) && Present(channels, offline, late, buffers) && peer !in offline
    ensures Tracked(offline + {peer}, buffers, since[peer := []])
  {
    forall p | p in offline ensures Tracks(buffers, since[peer := []], p) { assert Tracks(buffers, since, p); }
  }

  lemma TrackedUpdated(offline: set<PeerId>, buffers: map<PeerId, Buffer>, since: map<PeerId, seq<Happening>>,
                       peer: PeerId, b: Buffer, h: seq<Happening>)
    requires Tracked(offline, buffers, since) && peer in offline && b == Meaning(h)
    ensures Tracked(offline, buffers[peer := b], since[peer := h])
  {
    forall p | p in offline ensures Tracks(buffers[peer := b], since[peer := h], p) { assert Tracks(buffers, since, p); }
  }

  lemma {:induction false} DropAbsent(s: seq<PeerId>, x: PeerId)
    requires x !in s
    ensures Drop(s, x) == s
  {
    if s != [] { DropAbsent(s[1..], x); }
  }

  lemma HintFromOrder(order: seq<PeerId>, channels: map<PeerId, Channel>)
    requires Listed(order, channels)
    ensures Hinted(channels, if order == [] then "" else Short(order[0]))
  {
    if order != [] { assert order[0] in order; }
  }

  lemma HintSurvives(channels: map<PeerId, Channel>, peer: PeerId, hint: string)
    requires Hinted(channels, hint) && peer in channels && hint != Short(peer)
    ensures Hinted(channels - {peer}, hint)
  {
    var p :| p in channels && Short(p) == hint;
    assert p in channels - {peer};
  }

  lemma {:induction false} NoFramesNoContents(h: seq<Happening>)
    requires Frames(h) == []
    ensures Meaning(h) == EMPTY && OpenInterval(h) == [] && LastSealed(h) == []
  {
    if h != [] { NoFramesNoContents(h[..|h| - 1]); }
  }

  lemma TrackedKeys(channels: map<PeerId, Channel>, offline: set<PeerId>, late: set<PeerId>,
                    buffers: map<PeerId, Buffer>, since: map<PeerId, seq<Happening>>)
    requires Tracked(offline, buffers, since) && Present(channels, offline, late, buffers)
    ensures buffers.Keys <= since.Keys == offline <= channels.Keys
  {
  }

  lemma PresentResumed(channels: map<PeerId, Channel>, offline: set<PeerId>, late: set<PeerId>,
                       buffers: map<PeerId, Buffer>, peer: PeerId)
    requires Present(channels, offline, late, buffers)
    ensures Present(channels, offline - {peer}, late, buffers - {peer})
  {
  }

  lemma HintedRemoved(order: seq<PeerId>, channels: map<PeerId, Channel>, hint: string, peer: PeerId)
    requires Listed(order, channels) && Hinted(channels, hint) && peer in channels
    ensures Hinted(channels - {peer}, HintAfter(hint, peer, Drop(order, peer)))
  {
    hide Listed, Aged, Hinted;
    if hint == Short(peer) {
      ListedRemoved(order, channels, peer);
      HintFromOrder(Drop(order, peer), channels - {peer});
    } else {
      HintSurvives(channels, peer, hint);
    }
  }

  lemma GatedAfter(detached: map<PeerId, set<Channel>>, gates: map<PeerId, Gate>, settled: set<Channel>,
                   peer: PeerId, c: Channel)
    requires Gated(detached, gates, settled)
    ensures Gated(DetachedAfter(detached, peer, c), GatesAfter(gates, peer, c), settled)
  {
  }

  lemma AcceptingRemoved(sent: map<Channel, seq<Message>>, peers: map<Channel, PeerId>, c: Channel)
    requires Accepting(sent, peers)
    ensures Accepting(sent - {c}, peers - {c})
  {
  }

  lemma AcceptingAdded(sent: map<Channel, seq<Message>>, peers: map<Channel, PeerId>, p: PeerId, c: Channel)
    requires Accepting(sent, peers)
    ensures Accepting(sent[c := []], peers[c := p])
  {
  }
}
