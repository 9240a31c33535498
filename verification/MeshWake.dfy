/** Rate-capped, edge-triggered waking of an idle session (pi-extension/src/mcp/wake.ts, wired by
    pi-extension/src/mcp/mesh_server.ts). The source reads the clock once for the decision and again for
    the re-check delay; both readings are inputs here. */
module MeshWake {
  import opened Prelude
  import opened MeshInbox

  datatype WakeMessage = WakeMessage(from: string, body: string, id: string)

  function IndexOfColon(s: string, from: nat): (i: int)
    requires from <= |s|
    ensures i == -1 || from <= i < |s|
    decreases |s| - from
  {
    if from == |s| then -1 else if s[from] == ':' then from else IndexOfColon(s, from + 1)
  }

  /** `isLocalPeerAddress`: no `<pc>:` prefix (session/broker_remote.ts, `parseAddress`), and not the relay itself. */
  predicate IsLocal(from: string) {
    var i := IndexOfColon(from, 0);
    from != "_relay" && (i <= 0 || i == |from| - 1)
  }

  lemma {:induction false} ColonFound(s: string, from: nat)
    requires from <= |s|
    ensures var i := IndexOfColon(s, from);
            if i == -1 then forall j | from <= j < |s| :: s[j] != ':'
            else s[i] == ':' && forall j | from <= j < i :: s[j] != ':'
    decreases |s| - from
  {
    if from < |s| && s[from] != ':' { ColonFound(s, from + 1); }
  }

  /** A sender is local unless it is the relay, or a name before a first colon and something after it. */
  lemma LocalExactly(from: string)
    ensures IsLocal(from) <==>
              from != "_relay" && !exists pc: string, peer: string :: pc != "" && peer != "" && ':' !in pc && from == pc + ":" + peer
  {
    ColonFound(from, 0);
    var i := IndexOfColon(from, 0);
    if 0 < i < |from| - 1 {
      assert from == from[..i] + ":" + from[i + 1..];
      assert from[..i] != "" && from[i + 1..] != "" && ':' !in from[..i];
    }
    if pc: string, peer: string :| pc != "" && peer != "" && ':' !in pc && from == pc + ":" + peer {
      assert from[|pc|] == ':';
      assert forall j | 0 <= j < |pc| :: from[j] == pc[j];
      assert i == |pc|;
    }
  }

  // ----- The gate and the deferred re-check, as one decision ------------------------

  /** `lastReleaseMs`, `armed`, and whether a wake went out since the inbox was last drained. */
  datatype Gate = Gate(last: Option<int>, armed: bool, woke: bool)

  /** The cap lets a wake through at `now`. */
  predicate Open(g: Gate, minInterval: nat, now: int) { g.last.None? || now - g.last.value >= minInterval }

  /** A wake-eligible edge, or a fired re-check that found a local message. */
  function Decide(g: Gate, minInterval: nat, now: int, later: int): Gate {
    if Open(g, minInterval, now) then Gate(Some(now), g.armed, true)
    else if g.armed || Open(g, minInterval, later) then g
    else g.(armed := true)
  }

  /** Some wake is out, or some re-check is pending. */
  predicate Covered(g: Gate) { g.woke || g.armed }

  /** The two clock readings fall on different sides of the cap. */
  predicate Straddles(g: Gate, minInterval: nat, now: int, later: int) {
    !Open(g, minInterval, now) && Open(g, minInterval, later)
  }

  /** An edge leaves the message covered unless nothing covered it before and the readings straddle the cap. */
  lemma DecisionCovers(g: Gate, minInterval: nat, now: int, later: int)
    ensures Covered(Decide(g, minInterval, now, later)) <==> Covered(g) || !Straddles(g, minInterval, now, later)
  {
  }

  /** With one reading per step the edge is always covered. */
  lemma OneReadingCovers(g: Gate, minInterval: nat, now: int)
    ensures Covered(Decide(g, minInterval, now, now))
  {
    DecisionCovers(g, minInterval, now, now);
  }

  /** A lost wake: the cap ends between the two readings, so nothing is sent and nothing is armed. */
  lemma LostWake()
    ensures !Covered(Decide(Gate(Some(0), false, false), 5000, 4999, 5000))
  {
  }

  // ----- The coordinator ---------------------------------------------------------------

  ghost predicate HasLocal(entries: seq<Entry<WakeMessage>>) {
    exists i :: 0 <= i < |entries| && IsLocal(entries[i].item.from)
  }

  ghost predicate NoneLocal(entries: seq<Entry<WakeMessage>>) { !HasLocal(entries) }

  /** Successive wakes keep their distance. */
  ghost predicate Spaced(wakes: seq<(int, string)>, minInterval: nat) {
    forall i | 0 < i < |wakes| :: wakes[i].0 - wakes[i - 1].0 >= minInterval
  }

  lemma {:induction false} SpacedApart(wakes: seq<(int, string)>, minInterval: nat, i: nat, j: nat)
    requires Spaced(wakes, minInterval) && i < j < |wakes|
    ensures wakes[j].0 - wakes[i].0 >= (j - i) * minInterval
    decreases j - i
  {
    if i + 1 < j { SpacedApart(wakes, minInterval, i, j - 1); }
    assert (j - i) * minInterval == (j - 1 - i) * minInterval + minInterval;
  }

  class WakeCoordinator {
    const inbox: BoundedInbox<WakeMessage>
    const minInterval: nat
    var lastReleaseMs: Option<int>
    var armed: bool

    ghost var woke: bool                   // a wake was emitted since messages were last drained
    ghost var due: int                     // when the armed re-check is due
    ghost var wakes: seq<(int, string)>    // every wake emitted, with its sender
    ghost var lost: bool                   // the last decision found nothing covering it and straddled the cap

    ghost function View(): Gate reads this { Gate(lastReleaseMs, armed, woke) }

    ghost predicate Valid() reads this, inbox {
      && inbox.Valid()
      && Spaced(wakes, minInterval)
      && (lastReleaseMs == if wakes == [] then None else Some(wakes[|wakes| - 1].0))
      && (armed && !woke ==> lastReleaseMs.Some? && due == lastReleaseMs.value + minInterval)
      && (HasLocal(inbox.entries) ==> (Covered(View()) <==> !lost))
    }

    constructor (inbox: BoundedInbox<WakeMessage>, minInterval: nat)
      requires inbox.Valid() && inbox.entries == []
      ensures Valid() && this.inbox == inbox && this.minInterval == minInterval
      ensures View() == Gate(None, false, false) && wakes == [] && !lost
    {
      this.inbox, this.minInterval := inbox, minInterval;
      lastReleaseMs, armed, woke, due, wakes, lost := None, false, false, 0, [], false;
    }

    /** `inbox.find`: the first local message, if any. */
    method FindLocal() returns (found: Option<WakeMessage>)
      ensures found.None? <==> !HasLocal(inbox.entries)
      ensures found.Some? ==> IsLocal(found.value.from)
      ensures found.Some? ==> (exists i :: 0 <= i < |inbox.entries| && inbox.entries[i].item == found.value
                                           && NoneLocal(inbox.entries[..i]))
    {
      for i := 0 to |inbox.entries|
        invariant forall j | 0 <= j < i :: !IsLocal(inbox.entries[j].item.from)
      {
        if IsLocal(inbox.entries[i].item.from) { return Some(inbox.entries[i].item); }
      }
      return None;
    }

    /** `gate.release` followed by `emit`, or by `armDeferred` with its own clock reading. */
    method WakeOrArm(from: string, now: int, later: int)
      requires Spaced(wakes, minInterval)
      requires lastReleaseMs == if wakes == [] then None else Some(wakes[|wakes| - 1].0)
      requires armed && !woke ==> lastReleaseMs.Some? && due == lastReleaseMs.value + minInterval
      modifies this
      ensures Spaced(wakes, minInterval)
      ensures lastReleaseMs == if wakes == [] then None else Some(wakes[|wakes| - 1].0)
      ensures armed && !woke ==> lastReleaseMs.Some? && due == lastReleaseMs.value + minInterval
      ensures View() == Decide(old(View()), minInterval, now, later)
      ensures wakes == if Open(old(View()), minInterval, now) then old(wakes) + [(now, from)] else old(wakes)
      ensures lost == (!old(Covered(View())) && Straddles(old(View()), minInterval, now, later))
    {
      lost := !Covered(View()) && Straddles(View(), minInterval, now, later);
      if lastReleaseMs.None? || now - lastReleaseMs.value >= minInterval {
        lastReleaseMs := Some(now);
        woke := true;
        wakes := wakes + [(now, from)];
      } else if !armed {
        var remaining := minInterval - (later - lastReleaseMs.value);
        if remaining > 0 {
          armed := true;
          due := later + remaining;
        }
      }
    }

    /** `onMessage`. */
    method OnMessage(msg: WakeMessage, now: int, later: int)
      requires Valid()
      modifies this, inbox
      ensures Valid()
      ensures inbox.pushed == old(inbox.pushed) + 1
      ensures !IsLocal(msg.from) || old(HasLocal(inbox.entries)) ==>
                View() == old(View()) && wakes == old(wakes) && lost == old(lost)
      ensures IsLocal(msg.from) && !old(HasLocal(inbox.entries)) ==>
                && View() == Decide(old(View()), minInterval, now, later)
                && wakes == (if Open(old(View()), minInterval, now) then old(wakes) + [(now, msg.from)] else old(wakes))
                && lost == (!old(Covered(View())) && Straddles(old(View()), minInterval, now, later))
    {
      hide Spaced, KeepsNewest, IsLocal, Straddles, Decide, Open;
      var before := FindLocal();
      inbox.Push(msg);
      if IsLocal(msg.from) && before.None? {
        WakeOrArm(msg.from, now, later);
        DecisionCovers(old(View()), minInterval, now, later);
      } else {
        LocalWasThere(old(inbox.entries), inbox.entries, msg, inbox.limits, inbox.sizeOf);
      }
    }

    /** The armed re-check fires: an early one re-arms, one with nothing local left does nothing. */
    method RecheckFires(now: int, later: int)
      requires Valid() && armed
      modifies this
      ensures Valid() && inbox.entries == old(inbox.entries)
      ensures var g := old(View()).(armed := false);
              View() == (if HasLocal(inbox.entries) then Decide(g, minInterval, now, later) else g)
              && lost == if HasLocal(inbox.entries) then !Covered(g) && Straddles(g, minInterval, now, later) else old(lost)
      ensures HasLocal(inbox.entries) && Open(old(View()), minInterval, now) ==>
                exists i :: 0 <= i < |inbox.entries| && IsLocal(inbox.entries[i].item.from)
                            && NoneLocal(inbox.entries[..i])
                            && wakes == old(wakes) + [(now, inbox.entries[i].item.from)]
      ensures !(HasLocal(inbox.entries) && Open(old(View()), minInterval, now)) ==> wakes == old(wakes)
      ensures HasLocal(inbox.entries) && !old(woke) && now >= old(due) ==> woke && |wakes| == |old(wakes)| + 1
    {
      armed := false;
      var local := FindLocal();
      if local.Some? { WakeOrArm(local.value.from, now, later); }
    }

    /** `get_messages`: drain, and forget the pending re-check when something was drained. */
    method GetMessages() returns (items: seq<WakeMessage>, dropped: nat)
      requires Valid()
      modifies this, inbox
      ensures Valid() && items == Items(old(inbox.entries)) && inbox.entries == []
      ensures lastReleaseMs == old(lastReleaseMs) && wakes == old(wakes) && lost == old(lost)
      ensures View() == if items == [] then old(View()) else Gate(lastReleaseMs, false, false)
    {
      items, dropped := inbox.Drain();
      if |items| > 0 { armed, woke := false, false; }
    }
  }

  /** Pushing a message that is not the first local one leaves the question of local unread as it was, or answers it no. */
  lemma LocalWasThere(before: seq<Entry<WakeMessage>>, after: seq<Entry<WakeMessage>>, msg: WakeMessage,
                      limits: Limits, sizeOf: WakeMessage -> nat)
    requires after == before || KeepsNewest(after, before + [Entry(msg, sizeOf(msg))], limits)
    requires !IsLocal(msg.from) || HasLocal(before)
    ensures HasLocal(after) ==> HasLocal(before)
  {
    hide KeepsNewest, IsLocal;
    if HasLocal(after) && after != before {
      var i :| 0 <= i < |after| && IsLocal(after[i].item.from);
      var all := before + [Entry(msg, sizeOf(msg))];
      KeepsNewestMembers(after, all, limits);
      var j :| 0 <= j < |all| && all[j] == after[i];
      if j < |before| { assert before[j] == all[j]; }
    }
  }
}
