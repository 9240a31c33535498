/** Where one admitted frame is in the delivery of user messages, and what each step does to it: a reference for
    the delivery coordinator that follows a single frame, a single attempt or a single key at a time. */
module DeliveryFrames {
  import opened Prelude
  import opened UserDelivery

  datatype Place = Nowhere | Attempting(waiter: Waiter) | Queuing(entry: Entry) | Over(outcome: Outcome)

  function EntryOf(q: seq<Entry>, f: nat): Option<Entry> {
    if q == [] then None else if q[0].frame == f then Some(q[0]) else EntryOf(q[1..], f)
  }

  function OutcomeOf(answers: seq<Answer>, f: nat): Option<Outcome> {
    if answers == [] then None
    else if answers[|answers| - 1].frame == f then Some(answers[|answers| - 1].outcome)
    else OutcomeOf(answers[..|answers| - 1], f)
  }

  function PlaceOf(s: State, f: nat): Place {
    if f in s.waiting then Attempting(s.waiting[f])
    else if EntryOf(s.queue, f).Some? then Queuing(EntryOf(s.queue, f).value)
    else if OutcomeOf(s.answers, f).Some? then Over(OutcomeOf(s.answers, f).value)
    else Nowhere
  }

  // ----- What each step is to a frame --------------------------------------------------------------

  /** An attempt for a frame: answered if its id counts as delivered, else it awaits the attempt in flight. */
  predicate Tried(t: State, p: Place, msg: nat, since: Option<nat>) {
    var key := Key(t.session, msg);
    if key in t.delivered then p == Over(Delivered(key))
    else key in t.inflight && p == Attempting(Waiter(msg, t.inflight[key], since))
  }

  /** A frame whose attempt is over: delivered if the agent was woken; an error if the wake failed or threw; else
      it joins the end of the queue with the time it first did, unless that is a time to live ago. */
  function Returned(s: State, f: nat, w: Waiter): Place
    requires w.attempt in s.attempts && s.attempts[w.attempt].phase.Finalised?
  {
    var wake := s.attempts[w.attempt].phase.wake;
    var at := if w.since.Some? then w.since.value else s.now;
    if wake == Ok then Over(Delivered(s.attempts[w.attempt].key))
    else if wake != Recoverable then Over(Errored(WakeFailed(w.attempt)))
    else if w.since.Some? && at + TTL <= s.now then Over(Errored(TooOld(at)))
    else Queuing(Entry(f, w.msg, s.nextQueueId, at, at + TTL, 0))
  }

  predicate Back(s: State, step: Step, f: nat) {
    step == WaiterResumes(f) && f in s.waiting && s.waiting[f].attempt in s.attempts
    && s.attempts[s.waiting[f].attempt].phase.Finalised?
  }

  /** A frame comes back to a full queue, which gives up its oldest entry. */
  ghost predicate MakesRoom(s: State, step: Step, e: Entry) {
    && step.WaiterResumes? && Back(s, step, step.frame) && Returned(s, step.frame, s.waiting[step.frame]).Queuing?
    && |s.queue| == QUEUE_MAX && forall i | 0 <= i < |s.queue| :: e.queueId <= s.queue[i].queueId
  }

  predicate Rings(s: State, step: Step, e: Entry) { step.TimerFires? && step.queueId == e.queueId && e.dueAt <= s.now }

  predicate Renews(s: State, step: Step, e: Entry)
    requires step.TimerFires?
  {
    step.replacing && s.now < e.enqueuedAt + DEADLINE
  }

  ghost predicate QueuedFollows(s: State, step: Step, t: State, e: Entry, p: Place) {
    if step.Drain? then Tried(t, p, e.msg, Some(e.enqueuedAt))
    else if step.FailQueue? then p == Over(Errored(Closed))
    else if Rings(s, step, e) then
      p == if Renews(s, step, e) then Queuing(e.(dueAt := s.now + TTL, renewals := e.renewals + 1)) else Over(Errored(Expired))
    else if MakesRoom(s, step, e) then p == Over(Errored(Evicted))
    else p == Queuing(e)
  }

  /** What a step is to a frame. */
  ghost predicate Follows(s: State, step: Step, t: State, f: nat) {
    var p, q := PlaceOf(s, f), PlaceOf(t, f);
    if p.Nowhere? then
      if step.Deliver? && !s.fenced && f == s.nextFrame then Tried(t, q, step.msg, None) else q == Nowhere
    else if p.Attempting? then q == if Back(s, step, f) then Returned(s, f, p.waiter) else p
    else if p.Queuing? then QueuedFollows(s, step, t, p.entry, q)
    else q == p
  }

  // ----- What each step is to an attempt, and to a key -----------------------------------------------

  function AttemptAfter(x: Attempt, a: nat, step: Step): Attempt {
    if step.WakeSettles? && step.attempt == a && x.phase.Waking? then x.(phase := Settled(step.wake))
    else if step == AttemptFinalises(a) && x.phase.Settled? then x.(phase := Finalised(x.phase.wake))
    else x
  }

  /** The keys a step wakes the agent for. */
  function Woken(s: State, step: Step): seq<Key> {
    if step.WakeSettles? && step.wake == Ok && step.attempt in s.attempts && s.attempts[step.attempt].phase.Waking?
    then [s.attempts[step.attempt].key]
    else []
  }

  /** The step clears the key's place in the in-flight table. */
  predicate Clears(s: State, step: Step, k: Key) {
    step.Reset?
    || (step.AttemptFinalises? && step.attempt in s.attempts && s.attempts[step.attempt].key == k
        && s.attempts[step.attempt].phase.Settled?)
  }

  /** Each attempt goes its own way. */
  ghost predicate AttemptsFollow(s: State, step: Step, t: State) {
    forall a | a in s.attempts :: a in t.attempts && t.attempts[a] == AttemptAfter(s.attempts[a], a, step)
  }

  /** One attempt is started for each key the step tries that is neither delivered nor in flight, and no other. */
  ghost predicate StartsFollow(s: State, step: Step, t: State) {
    && (forall k :: k in t.inflight <==> (k in s.inflight && !Clears(s, step, k)) || (Tries(s, step, k) && k !in s.delivered))
    && (forall k | k in t.inflight :: if k in s.inflight then t.inflight[k] == s.inflight[k]
                                      else t.inflight[k] !in s.attempts && t.inflight[k] in t.attempts)
    && (forall a | a in t.attempts && a !in s.attempts ::
          var x := t.attempts[a]; x.phase.Waking? && x.key !in s.inflight && x.key in t.inflight && t.inflight[x.key] == a)
  }

  ghost predicate KeysFollow(s: State, step: Step, t: State) {
    && t.wakes == s.wakes + Woken(s, step)
    && forall k :: k in t.delivered <==> !step.Reset? && (k in s.delivered || k in Woken(s, step))
  }

  predicate RestFollows(s: State, step: Step, t: State) {
    && t.nextFrame == s.nextFrame + (if step.Deliver? && !s.fenced then 1 else 0)
    && t.session == (if step.SwitchSession? then step.session else s.session)
    && t.fenced == (step.Fence? || (s.fenced && !step.Unfence?))
    && t.now == (if step.Tick? && s.now <= step.to then step.to else s.now)
  }

  // ----- Queues, answers and places ----------------------------------------------------------------

  lemma {:induction false} EntryNone(q: seq<Entry>, f: nat)
    ensures EntryOf(q, f).None? <==> Queued(q, f) == 0
    ensures EntryOf(q, f).Some? ==> EntryOf(q, f).value in q && EntryOf(q, f).value.frame == f
  {
    if q != [] { EntryNone(q[1..], f); }
  }

  lemma {:induction false} EntryConcat(a: seq<Entry>, b: seq<Entry>, f: nat)
    ensures EntryOf(a + b, f) == if EntryOf(a, f).Some? then EntryOf(a, f) else EntryOf(b, f)
  {
    if a == [] {
      assert a + b == b;
    } else {
      EntryConcat(a[1..], b, f);
      assert (a + b)[1..] == a[1..] + b;
    }
  }

  lemma EntryOne(e: Entry, f: nat)
    ensures EntryOf([e], f) == if e.frame == f then Some(e) else None
  {
    assert [e][1..] == [];
  }

  /** An entry in the midst of a queue that holds its frame once. */
  lemma EntryAmid(a: seq<Entry>, e: Entry, b: seq<Entry>, f: nat)
    requires Queued(a + [e] + b, f) <= 1
    ensures EntryOf(a + [e] + b, f) == if e.frame == f then Some(e) else EntryOf(a + b, f)
    ensures e.frame == f ==> EntryOf(a + b, f).None?
  {
    hide EntryOf, Queued;
    EntryConcat(a + [e], b, f);
    EntryConcat(a, [e], f);
    EntryConcat(a, b, f);
    EntryOne(e, f);
    QueuedConcat(a + [e], b, f);
    QueuedConcat(a, [e], f);
    QueuedConcat(a, b, f);
    QueuedOne(e, f);
    EntryNone(a, f);
    EntryNone(b, f);
    EntryNone(a + b, f);
  }

  lemma OutcomeNone(answers: seq<Answer>, f: nat)
    ensures OutcomeOf(answers, f).None? <==> AnswersTo(answers, f) == 0
  {
  }

  lemma OutcomeMore(answers: seq<Answer>, frame: nat, o: Outcome, f: nat)
    ensures OutcomeOf(answers + [Answer(frame, o)], f) == if f == frame then Some(o) else OutcomeOf(answers, f)
  {
    assert (answers + [Answer(frame, o)])[..|answers|] == answers;
  }

  /** A frame is nowhere exactly when no place holds it. */
  lemma NowhereIff(s: State, f: nat)
    ensures PlaceOf(s, f).Nowhere? <==> Places(s, f) == 0
  {
    EntryNone(s.queue, f);
    OutcomeNone(s.answers, f);
  }

  /** A frame held once is held only there. */
  lemma HeldOnce(s: State, f: nat)
    requires Places(s, f) <= 1
    ensures PlaceOf(s, f).Attempting? ==> EntryOf(s.queue, f).None? && OutcomeOf(s.answers, f).None?
    ensures PlaceOf(s, f).Queuing? ==> OutcomeOf(s.answers, f).None?
    ensures PlaceOf(s, f).Over? ==> EntryOf(s.queue, f).None?
    ensures Queued(s.queue, f) <= 1
  {
    EntryNone(s.queue, f);
    OutcomeNone(s.answers, f);
  }

  lemma AnsweredPlace(s: State, frame: nat, o: Outcome, f: nat)
    requires PlaceOf(s, frame).Nowhere?
    ensures PlaceOf(Answered(s, frame, o), f) == if f == frame then Over(o) else PlaceOf(s, f)
  {
    hide EntryOf;
    OutcomeMore(s.answers, frame, o, f);
  }

  lemma AttemptedPlace(s: State, frame: nat, msg: nat, since: Option<nat>, f: nat)
    requires PlaceOf(s, frame).Nowhere?
    ensures var t := Attempted(s, frame, msg, since);
            if f == frame then Tried(t, PlaceOf(t, f), msg, since) else PlaceOf(t, f) == PlaceOf(s, f)
  {
    hide EntryOf, OutcomeOf;
    AnsweredPlace(s, frame, Delivered(Key(s.session, msg)), f);
  }

  lemma AwaitedPlace(s: State, frame: nat, f: nat)
    requires frame in s.waiting && Places(s, frame) <= 1
    ensures PlaceOf(s.(waiting := s.waiting - {frame}), f) == if f == frame then Nowhere else PlaceOf(s, f)
  {
    hide EntryOf, OutcomeOf, Places;
    HeldOnce(s, frame);
  }

  /** The oldest entry makes room. */
  lemma EvictedPlace(s: State, f: nat)
    requires s.queue != [] && Places(s, s.queue[0].frame) <= 1 && Places(s, f) <= 1
    ensures var e := s.queue[0];
            PlaceOf(Answered(s, e.frame, Errored(Evicted)).(queue := s.queue[1..]), f)
            == if f == e.frame then Over(Errored(Evicted)) else PlaceOf(s, f)
  {
    hide Queued, OutcomeOf;
    var e := s.queue[0];
    HeldOnce(s, f);
    assert EntryOf(s.queue, e.frame) == Some(e);
    var t := s.(queue := s.queue[1..]);
    EntryNone(s.queue[1..], f);
    Heads(s.queue, f);
    HeldHead(s);
    OutcomeMore(s.answers, e.frame, Errored(Evicted), f);
  }

  lemma Heads(q: seq<Entry>, f: nat)
    requires q != [] && Queued(q, f) <= 1
    ensures q[0].frame == f ==> Queued(q[1..], f) == 0
  {
  }

  lemma HeldHead(s: State)
    requires s.queue != [] && Places(s, s.queue[0].frame) <= 1
    ensures s.queue[0].frame !in s.waiting
  {
  }

  lemma PushedPlace(s: State, e: Entry, f: nat)
    requires PlaceOf(s, e.frame).Nowhere?
    ensures PlaceOf(s.(queue := s.queue + [e], nextQueueId := s.nextQueueId + 1), f) == if f == e.frame then Queuing(e) else PlaceOf(s, f)
  {
    hide EntryOf, OutcomeOf;
    EntryConcat(s.queue, [e], f);
    EntryOne(e, f);
  }

  /** A frame joins the queue, which may give up its oldest entry. */
  lemma EnqueuedPlace(s: State, frame: nat, msg: nat, at: nat, f: nat)
    requires PlaceOf(s, frame).Nowhere? && forall g: nat :: Places(s, g) <= 1
    ensures PlaceOf(Enqueued(s, frame, msg, at), f)
            == if f == frame then Queuing(Entry(frame, msg, s.nextQueueId, at, Due(s.now, at), 0))
               else if |s.queue| >= QUEUE_MAX && s.queue[0].frame == f then Over(Errored(Evicted))
               else PlaceOf(s, f)
  {
    hide PlaceOf, Places;
    var e := Entry(frame, msg, s.nextQueueId, at, Due(s.now, at), 0);
    if |s.queue| >= QUEUE_MAX {
      NowhereIff(s, frame);
      HeadHeld(s);
      EvictedPlace(s, f);
      EvictedPlace(s, frame);
      PushedPlace(Answered(s, s.queue[0].frame, Errored(Evicted)).(queue := s.queue[1..]), e, f);
    } else {
      PushedPlace(s, e, f);
    }
  }

  lemma HeadHeld(s: State)
    requires s.queue != []
    ensures Places(s, s.queue[0].frame) >= 1
  {
  }

  lemma FiredPlace(s: State, i: nat, f: nat)
    requires i < |s.queue| && Places(s, f) <= 1 && Places(s, s.queue[i].frame) <= 1
    ensures var e := s.queue[i];
            && (e.frame == f ==> PlaceOf(s, f) == Queuing(e))
            && PlaceOf(Answered(s, e.frame, Errored(Expired)).(queue := s.queue[..i] + s.queue[i + 1..]), f)
               == if f == e.frame then Over(Errored(Expired)) else PlaceOf(s, f)
  {
    hide EntryOf, OutcomeOf, Queued;
    var e := s.queue[i];
    HeldOnce(s, f);
    assert s.queue[..i] + [e] + s.queue[i + 1..] == s.queue;
    EntryAmid(s.queue[..i], e, s.queue[i + 1..], f);
    EntryNone(s.queue, e.frame);
    QueuedHas(s, i);
    OutcomeMore(s.answers, e.frame, Errored(Expired), f);
  }

  lemma QueuedHas(s: State, i: nat)
    requires i < |s.queue| && Places(s, s.queue[i].frame) <= 1
    ensures s.queue[i].frame !in s.waiting
  {
    hide Queued, AnsweredEach;
    QueuedRemoved(s.queue, i, s.queue[i].frame);
  }

  lemma RenewedPlace(s: State, i: nat, r: Entry, f: nat)
    requires i < |s.queue| && Places(s, f) <= 1 && r.frame == s.queue[i].frame
    ensures PlaceOf(s.(queue := s.queue[i := r]), f)
            == if r.frame == f && PlaceOf(s, f).Queuing? then Queuing(r) else PlaceOf(s, f)
    ensures r.frame == f ==> PlaceOf(s, f) == Queuing(s.queue[i])
  {
    hide EntryOf, OutcomeOf, Queued;
    var e := s.queue[i];
    HeldOnce(s, f);
    assert s.queue[..i] + [e] + s.queue[i + 1..] == s.queue;
    assert s.queue[..i] + [r] + s.queue[i + 1..] == s.queue[i := r];
    QueuedReplaced(s.queue, i, r, f);
    EntryAmid(s.queue[..i], e, s.queue[i + 1..], f);
    EntryAmid(s.queue[..i], r, s.queue[i + 1..], f);
    if r.frame == f { QueuedHas(s, i); }
  }

  // ----- Each step moves each frame as it should ------------------------------------------------------

  /** Each admitted frame is in one place. */
  lemma PlacedOnce(s: State, f: nat)
    requires Conserved(s)
    ensures Places(s, f) <= 1 && (PlaceOf(s, f).Nowhere? <==> f >= s.nextFrame)
  {
    hide Places;
    NowhereIff(s, f);
    assert Places(s, f) == if f < s.nextFrame then 1 else 0;
  }

  lemma AllOnce(s: State)
    requires Conserved(s)
    ensures forall g: nat :: Places(s, g) <= 1
  {
    hide Places;
    assert forall g: nat :: Places(s, g) == if g < s.nextFrame then 1 else 0;
  }

  lemma DeliverFollows(s: State, msg: nat, f: nat)
    requires Conserved(s)
    ensures Follows(s, Deliver(msg), Next(s, Deliver(msg)), f)
  {
    hide Places, Conserved, EntryOf, OutcomeOf, Attempted, Tried;
    PlacedOnce(s, f);
    if !s.fenced {
      var t := s.(nextFrame := s.nextFrame + 1);
      PlacedOnce(s, s.nextFrame);
      AttemptedPlace(t, s.nextFrame, msg, None, f);
    }
  }

  /** Taking one awaited frame away leaves the others in one place. */
  lemma AwaitedOnce(s: State, frame: nat)
    requires frame in s.waiting && Conserved(s)
    ensures forall g: nat :: Places(s.(waiting := s.waiting - {frame}), g) <= 1
  {
    hide Places;
    forall g: nat ensures Places(s.(waiting := s.waiting - {frame}), g) <= 1 {
      assert Places(s, g) == if g < s.nextFrame then 1 else 0;
      WaiterPlaces(s, frame, g);
    }
  }

  lemma ReturnsPlace(s: State, frame: nat, f: nat)
    requires Conserved(s) && Back(s, WaiterResumes(frame), frame)
    ensures var t, r := Next(s, WaiterResumes(frame)), Returned(s, frame, s.waiting[frame]);
            PlaceOf(t, f) == if f == frame then r
                             else if r.Queuing? && |s.queue| >= QUEUE_MAX && s.queue[0].frame == f then Over(Errored(Evicted))
                             else PlaceOf(s, f)
  {
    hide Places, Conserved, PlaceOf, Enqueued, Answered;
    var w := s.waiting[frame];
    var wake := s.attempts[w.attempt].phase.wake;
    var t := s.(waiting := s.waiting - {frame});
    AllOnce(s);
    AwaitedOnce(s, frame);
    AwaitedPlace(s, frame, f);
    AwaitedPlace(s, frame, frame);
    if wake == Ok {
      AnsweredPlace(t, frame, Delivered(s.attempts[w.attempt].key), f);
    } else if wake != Recoverable {
      AnsweredPlace(t, frame, Errored(WakeFailed(w.attempt)), f);
    } else if w.since.None? {
      EnqueuedPlace(t, frame, w.msg, s.now, f);
    } else if s.now - w.since.value >= TTL {
      AnsweredPlace(t, frame, Errored(TooOld(w.since.value)), f);
    } else {
      EnqueuedPlace(t, frame, w.msg, w.since.value, f);
    }
  }

  /** The entry at the head is the oldest, and no other is. */
  lemma HeadOldest(s: State, f: nat)
    requires Consistent(s) && PlaceOf(s, f).Queuing?
    ensures s.queue != []
    ensures s.queue[0].frame == f <==> forall i | 0 <= i < |s.queue| :: PlaceOf(s, f).entry.queueId <= s.queue[i].queueId
  {
    hide Conserved, Linked, Truthful, Earned, Places;
    EntryNone(s.queue, f);
  }

  lemma HeadPlace(s: State)
    requires s.queue != [] && s.queue[0].frame !in s.waiting
    ensures PlaceOf(s, s.queue[0].frame) == Queuing(s.queue[0])
  {
  }

  lemma WaiterFollows(s: State, frame: nat, f: nat)
    requires Consistent(s)
    ensures Follows(s, WaiterResumes(frame), Next(s, WaiterResumes(frame)), f)
  {
    hide Places, Conserved, Linked, Truthful, Earned, Numbered, Returned, WaiterResumed, EntryOf, OutcomeOf;
    var step := WaiterResumes(frame);
    if Back(s, step, frame) {
      ReturnsPlace(s, frame, f);
      PlacedOnce(s, f);
      if PlaceOf(s, f).Queuing? { HeadOldest(s, f); }
      if f != frame && s.queue != [] && s.queue[0].frame == f {
        HeldHead(s);
        HeadPlace(s);
      }
    } else {
      NotBack(s, frame);
    }
  }

  lemma NotBack(s: State, frame: nat)
    requires !Back(s, WaiterResumes(frame), frame)
    ensures WaiterResumed(s, frame) == s
  {
  }

  /** A timer rings for the one entry with its id. */
  lemma IdOnce(s: State, i: nat, e: Entry)
    requires Numbered(s.queue, s.nextQueueId) && i < |s.queue| && e in s.queue && e.queueId == s.queue[i].queueId
    ensures e == s.queue[i]
  {
  }

  lemma TimerFollows(s: State, queueId: nat, replacing: bool, f: nat)
    requires Consistent(s)
    ensures Follows(s, TimerFires(queueId, replacing), Fired(s, queueId, replacing), f)
  {
    hide Places, Conserved, Linked, Truthful, Earned, Numbered, OutcomeOf, EntryOf, IndexOf;
    var i := IndexOf(s.queue, queueId);
    PlacedOnce(s, f);
    EntryNone(s.queue, f);
    if i < |s.queue| {
      var e := s.queue[i];
      PlacedOnce(s, e.frame);
      if PlaceOf(s, f).Queuing? && PlaceOf(s, f).entry.queueId == queueId { IdOnce(s, i, PlaceOf(s, f).entry); }
      if s.now >= e.dueAt {
        FiredPlace(s, i, f);
        RenewedPlace(s, i, e.(dueAt := Due(s.now, s.now), renewals := e.renewals + 1), f);
      }
    }
  }

  lemma {:induction false} AnsweredEachPlace(s: State, es: seq<Entry>, f: nat)
    requires forall g: nat :: Places(s, g) + Queued(es, g) <= 1
    ensures PlaceOf(AnsweredEach(s, es), f) == if EntryOf(es, f).Some? then Over(Errored(Closed)) else PlaceOf(s, f)
    decreases |es|
  {
    hide Places, PlaceOf, Answered;
    if es != [] {
      var e := es[0];
      var t := Answered(s, e.frame, Errored(Closed));
      assert Places(s, e.frame) + Queued(es, e.frame) <= 1;
      NowhereIff(s, e.frame);
      forall g: nat ensures Places(t, g) + Queued(es[1..], g) == Places(s, g) + Queued(es, g) {
        AnsweredPlaces(s, e.frame, Errored(Closed), g);
      }
      AnsweredPlace(s, e.frame, Errored(Closed), f);
      EntryNone(es[1..], f);
      AnsweredEachPlace(t, es[1..], f);
    }
  }

  lemma {:induction false} AttemptedEachPlace(s: State, es: seq<Entry>, f: nat)
    requires forall g: nat :: Places(s, g) + Queued(es, g) <= 1
    ensures var t := AttemptedEach(s, es);
            if EntryOf(es, f).Some? then Tried(t, PlaceOf(t, f), EntryOf(es, f).value.msg, Some(EntryOf(es, f).value.enqueuedAt))
            else PlaceOf(t, f) == PlaceOf(s, f)
    decreases |es|
  {
    hide Places, PlaceOf, Attempted, Tried;
    if es != [] {
      var e := es[0];
      var since := Some(e.enqueuedAt);
      var t := Attempted(s, e.frame, e.msg, since);
      assert Places(s, e.frame) + Queued(es, e.frame) <= 1;
      NowhereIff(s, e.frame);
      forall g: nat ensures Places(t, g) + Queued(es[1..], g) == Places(s, g) + Queued(es, g) {
        AttemptedPlaces(s, e.frame, e.msg, since, g);
      }
      AttemptedPlace(s, e.frame, e.msg, since, f);
      EntryNone(es[1..], f);
      AttemptedEachPlace(t, es[1..], f);
      if e.frame == f { TriedStays(t, es[1..], PlaceOf(t, f), e.msg, since); }
    }
  }

  lemma {:induction false} InflightStays(s: State, es: seq<Entry>)
    ensures var t := AttemptedEach(s, es);
            t.session == s.session && t.delivered == s.delivered
            && forall k | k in s.inflight :: k in t.inflight && t.inflight[k] == s.inflight[k]
    decreases |es|
  {
    if es != [] { InflightStays(Attempted(s, es[0].frame, es[0].msg, Some(es[0].enqueuedAt)), es[1..]); }
  }

  lemma TriedStays(s: State, es: seq<Entry>, p: Place, msg: nat, since: Option<nat>)
    requires Tried(s, p, msg, since)
    ensures Tried(AttemptedEach(s, es), p, msg, since)
  {
    InflightStays(s, es);
  }

  /** An empty queue holds none of its frames. */
  lemma EmptiedPlace(s: State, f: nat)
    requires Places(s, f) <= 1
    ensures PlaceOf(s.(queue := []), f) == if PlaceOf(s, f).Queuing? then Nowhere else PlaceOf(s, f)
    ensures PlaceOf(s, f).Queuing? <==> EntryOf(s.queue, f).Some?
    ensures PlaceOf(s, f).Queuing? ==> EntryOf(s.queue, f).value == PlaceOf(s, f).entry
  {
    hide Places, Queued, OutcomeOf;
    HeldOnce(s, f);
  }

  lemma EmptiedOnce(s: State)
    requires Conserved(s)
    ensures forall g: nat :: Places(s.(queue := []), g) + Queued(s.queue, g) <= 1
  {
    hide Places;
    forall g: nat ensures Places(s.(queue := []), g) + Queued(s.queue, g) <= 1 {
      assert Places(s, g) == if g < s.nextFrame then 1 else 0;
      DrainedPlaces(s, g);
    }
  }

  lemma QueueFollows(s: State, step: Step, f: nat)
    requires Conserved(s) && (step.Drain? || step.FailQueue?)
    ensures Follows(s, step, Next(s, step), f)
  {
    hide Places, Conserved, PlaceOf, Tried, AttemptedEach, AnsweredEach;
    AllOnce(s);
    EmptiedOnce(s);
    EmptiedPlace(s, f);
    AttemptedEachPlace(s.(queue := []), s.queue, f);
    AnsweredEachPlace(s.(queue := []), s.queue, f);
  }

  lemma SamePlace(s: State, step: Step, f: nat)
    requires Next(s, step).waiting == s.waiting && Next(s, step).queue == s.queue && Next(s, step).answers == s.answers
    requires !step.Deliver? && !step.WaiterResumes? && !step.TimerFires? && !step.Drain? && !step.FailQueue?
    ensures Follows(s, step, Next(s, step), f)
  {
    hide Next, EntryOf, OutcomeOf;
  }

  /** Every step does to every frame exactly what that frame's place calls for. */
  lemma StepFollows(s: State, step: Step, f: nat)
    requires Consistent(s)
    ensures Follows(s, step, Next(s, step), f)
  {
    hide Consistent, Follows, Received, WaiterResumed, Fired, AttemptedEach, AnsweredEach;
    Parts(s);
    match step
    case Deliver(msg) => DeliverFollows(s, msg, f);
    case WaiterResumes(frame) => WaiterFollows(s, frame, f);
    case TimerFires(queueId, replacing) => TimerFollows(s, queueId, replacing, f);
    case Drain => QueueFollows(s, step, f);
    case FailQueue => QueueFollows(s, step, f);
    case _ => SamePlace(s, step, f);
  }

  lemma Parts(s: State)
    requires Consistent(s)
    ensures Conserved(s) && Sound(s)
  {
  }

  // ----- Each step moves each attempt and each key as it should -------------------------------------------

  ghost predicate TriesIn(s: State, es: seq<Entry>, k: Key) {
    k.session == s.session && exists i :: 0 <= i < |es| && es[i].msg == k.msg
  }

  /** What attempting some frames starts: one attempt for each of their keys not delivered and not in flight. */
  ghost predicate Starts(s: State, t: State, tried: iset<Key>) {
    && (forall k :: k in t.inflight <==> k in s.inflight || (k in tried && k !in s.delivered))
    && (forall k | k in t.inflight :: if k in s.inflight then t.inflight[k] == s.inflight[k]
                                      else t.inflight[k] !in s.attempts && t.inflight[k] in t.attempts)
    && (forall a | a in s.attempts :: a in t.attempts && t.attempts[a] == s.attempts[a])
    && (forall a | a in t.attempts && a !in s.attempts ::
          var x := t.attempts[a]; x.phase.Waking? && x.key !in s.inflight && x.key in t.inflight && t.inflight[x.key] == a)
  }

  lemma AttemptedStarts(s: State, frame: nat, msg: nat, since: Option<nat>)
    requires forall a | a in s.attempts :: a < s.nextAttempt
    ensures Starts(s, Attempted(s, frame, msg, since), iset{Key(s.session, msg)})
    ensures forall a | a in Attempted(s, frame, msg, since).attempts :: a < Attempted(s, frame, msg, since).nextAttempt
  {
  }

  lemma StartsMore(s: State, t: State, u: State, tried: iset<Key>, more: iset<Key>)
    requires Starts(s, t, tried) && Starts(t, u, more) && t.delivered == s.delivered
    requires forall k | k in s.inflight :: s.inflight[k] in s.attempts
    ensures Starts(s, u, tried + more)
  {
  }

  lemma {:induction false} EachStarts(s: State, es: seq<Entry>)
    requires forall a | a in s.attempts :: a < s.nextAttempt
    requires forall k | k in s.inflight :: s.inflight[k] in s.attempts
    ensures Starts(s, AttemptedEach(s, es), iset k | TriesIn(s, es, k))
    decreases |es|
  {
    hide Starts, Attempted;
    if es != [] {
      var e := es[0];
      var t := Attempted(s, e.frame, e.msg, Some(e.enqueuedAt));
      AttemptedStarts(s, e.frame, e.msg, Some(e.enqueuedAt));
      AttemptedFrames(s, e.frame, e.msg, Some(e.enqueuedAt));
      StartsLinked(s, t, iset{Key(s.session, e.msg)});
      EachStarts(t, es[1..]);
      StartsMore(s, t, AttemptedEach(t, es[1..]), iset{Key(s.session, e.msg)}, iset k | TriesIn(t, es[1..], k));
      TriesCons(s, t, es);
    } else {
      NoStarts(s);
    }
  }

  lemma StartsLinked(s: State, t: State, tried: iset<Key>)
    requires Starts(s, t, tried) && forall k | k in s.inflight :: s.inflight[k] in s.attempts
    ensures forall k | k in t.inflight :: t.inflight[k] in t.attempts
  {
  }

  lemma TriesCons(s: State, t: State, es: seq<Entry>)
    requires es != [] && t.session == s.session
    ensures iset{Key(s.session, es[0].msg)} + (iset k | TriesIn(t, es[1..], k)) == iset k | TriesIn(s, es, k)
  {
    forall k: Key ensures TriesIn(s, es, k) <==> k == Key(s.session, es[0].msg) || TriesIn(t, es[1..], k) {
      if TriesIn(s, es, k) {
        var i :| 0 <= i < |es| && es[i].msg == k.msg;
        if i > 0 { assert es[1..][i - 1].msg == k.msg; }
      }
      if TriesIn(t, es[1..], k) {
        var i :| 0 <= i < |es[1..]| && es[1..][i].msg == k.msg;
        assert es[i + 1].msg == k.msg;
      }
    }
  }

  lemma NoStarts(s: State)
    requires forall k | k in s.inflight :: s.inflight[k] in s.attempts
    ensures Starts(s, s, iset k | TriesIn(s, [], k))
  {
  }

  lemma DrainFollows(s: State)
    requires Sound(s)
    ensures AttemptsFollow(s, Drain, Next(s, Drain)) && StartsFollow(s, Drain, Next(s, Drain))
  {
    hide Truthful, AttemptedEach;
    var t := s.(queue := []);
    EachStarts(t, s.queue);
    assert forall k :: TriesIn(t, s.queue, k) <==> Tries(s, Drain, k);
  }

  lemma ReceivedFollows(s: State, msg: nat)
    requires Sound(s)
    ensures AttemptsFollow(s, Deliver(msg), Next(s, Deliver(msg))) && StartsFollow(s, Deliver(msg), Next(s, Deliver(msg)))
  {
    hide Truthful, Attempted;
    if !s.fenced {
      AttemptedStarts(s.(nextFrame := s.nextFrame + 1), s.nextFrame, msg, None);
      assert forall k :: k in iset{Key(s.session, msg)} <==> Tries(s, Deliver(msg), k);
    }
  }

  lemma SameAttempts(s: State, step: Step)
    requires Next(s, step).attempts == s.attempts && Next(s, step).inflight == s.inflight
    requires !step.Deliver? && !step.Drain? && !step.WakeSettles? && !step.AttemptFinalises? && !step.Reset?
    ensures AttemptsFollow(s, step, Next(s, step)) && StartsFollow(s, step, Next(s, step))
  {
    hide Next;
  }

  lemma SettlingFollows(s: State, a: nat, wake: Wake)
    ensures AttemptsFollow(s, WakeSettles(a, wake), Next(s, WakeSettles(a, wake)))
    ensures StartsFollow(s, WakeSettles(a, wake), Next(s, WakeSettles(a, wake)))
  {
  }

  lemma FinallyFollows(s: State, a: nat)
    ensures AttemptsFollow(s, AttemptFinalises(a), Next(s, AttemptFinalises(a)))
    ensures StartsFollow(s, AttemptFinalises(a), Next(s, AttemptFinalises(a)))
  {
  }

  lemma OthersFollow(s: State, step: Step)
    requires !step.Deliver? && !step.Drain?
    ensures AttemptsFollow(s, step, Next(s, step)) && StartsFollow(s, step, Next(s, step))
  {
    hide WakeSettled, AttemptFinalised, WaiterResumed, Fired, AnsweredEach, AttemptsFollow, StartsFollow;
    match step
    case WaiterResumes(frame) =>
      WaiterResumedKeeps(s, frame);
      SameAttempts(s, step);
    case TimerFires(queueId, replacing) =>
      FiredKeeps(s, queueId, replacing);
      SameAttempts(s, step);
    case FailQueue =>
      AnsweredEachKeeps(s.(queue := []), s.queue);
      SameAttempts(s, step);
    case WakeSettles(a, wake) => SettlingFollows(s, a, wake);
    case AttemptFinalises(a) => FinallyFollows(s, a);
    case Reset => ResetFollows(s);
    case _ => SameAttempts(s, step);
  }

  lemma ResetFollows(s: State)
    ensures AttemptsFollow(s, Reset, Next(s, Reset)) && StartsFollow(s, Reset, Next(s, Reset))
  {
  }

  /** A step that settles no wake and does not reset leaves the keys alone. */
  lemma SameKeys(s: State, step: Step, t: State)
    requires t.delivered == s.delivered && t.wakes == s.wakes && !step.WakeSettles? && !step.Reset?
    ensures KeysFollow(s, step, t)
  {
  }

  lemma ChangedKeys(s: State, step: Step)
    requires step.WakeSettles? || step.Reset?
    ensures KeysFollow(s, step, Next(s, step)) && RestFollows(s, step, Next(s, step))
  {
  }

  lemma KeysStep(s: State, step: Step)
    ensures KeysFollow(s, step, Next(s, step)) && RestFollows(s, step, Next(s, step))
  {
    hide Attempted, WakeSettled, AttemptFinalised, WaiterResumed, Fired, AttemptedEach, AnsweredEach, Forgotten, KeysFollow;
    if step.WakeSettles? || step.Reset? {
      ChangedKeys(s, step);
    } else {
      KeysKept(s, step);
      SameKeys(s, step, Next(s, step));
    }
  }

  lemma KeysKept(s: State, step: Step)
    requires !step.WakeSettles? && !step.Reset?
    ensures var t := Next(s, step); t.delivered == s.delivered && t.wakes == s.wakes && RestFollows(s, step, t)
  {
    hide Attempted, WaiterResumed, Fired, AttemptedEach, AnsweredEach;
    match step
    case Deliver(msg) => AttemptedFrames(s.(nextFrame := s.nextFrame + 1), s.nextFrame, msg, None);
    case WaiterResumes(frame) => WaiterResumedKeeps(s, frame);
    case TimerFires(queueId, replacing) => FiredKeeps(s, queueId, replacing);
    case Drain => AttemptedEachFrames(s.(queue := []), s.queue);
    case FailQueue => AnsweredEachKeeps(s.(queue := []), s.queue);
    case _ =>
  }

  /** And to every attempt, every key, the clock, the session and the fence. */
  lemma StepAttempts(s: State, step: Step)
    requires Consistent(s)
    ensures AttemptsFollow(s, step, Next(s, step)) && StartsFollow(s, step, Next(s, step))
    ensures KeysFollow(s, step, Next(s, step)) && RestFollows(s, step, Next(s, step))
  {
    hide Consistent, Sound, AttemptsFollow, StartsFollow, KeysFollow, RestFollows, Next;
    Parts(s);
    KeysStep(s, step);
    if step.Drain? {
      DrainFollows(s);
    } else if step.Deliver? {
      ReceivedFollows(s, step.msg);
    } else {
      OthersFollow(s, step);
    }
  }

  // ----- Order -------------------------------------------------------------------------------------------

  /** Keys newly in flight get new numbers. */
  lemma {:induction false} EachNumbered(s: State, es: seq<Entry>, k: Key)
    requires k !in s.inflight && k in AttemptedEach(s, es).inflight
    ensures AttemptedEach(s, es).inflight[k] >= s.nextAttempt
    decreases |es|
  {
    if es != [] {
      var t := Attempted(s, es[0].frame, es[0].msg, Some(es[0].enqueuedAt));
      if k in t.inflight { InflightStays(t, es[1..]); } else { EachNumbered(t, es[1..], k); }
    }
  }

  /** A drain starts attempts in the order of the queue: of two keys it starts, the one queued first comes first. */
  lemma {:induction false} DrainsInOrder(s: State, es: seq<Entry>, i: nat, j: nat)
    requires i < j < |es| && forall h | 0 <= h <= i :: es[h].msg != es[j].msg
    requires forall k | k in {Key(s.session, es[i].msg), Key(s.session, es[j].msg)} :: k !in s.delivered && k !in s.inflight
    requires forall h | 0 <= h < i :: es[h].msg != es[i].msg
    ensures var t, ki, kj := AttemptedEach(s, es), Key(s.session, es[i].msg), Key(s.session, es[j].msg);
            ki in t.inflight && kj in t.inflight && t.inflight[ki] < t.inflight[kj]
    decreases |es|
  {
    hide AttemptedEach;
    var ki, kj := Key(s.session, es[i].msg), Key(s.session, es[j].msg);
    var t := Attempted(s, es[0].frame, es[0].msg, Some(es[0].enqueuedAt));
    EachCons(s, es);
    assert es[1..][j - 1] == es[j];
    if i == 0 {
      InflightStays(t, es[1..]);
      EachTries(t, es[1..], j - 1);
      EachNumbered(t, es[1..], kj);
    } else {
      assert es[0].msg != es[i].msg && es[0].msg != es[j].msg;
      assert es[1..][i - 1] == es[i];
      DrainsInOrder(t, es[1..], i - 1, j - 1);
    }
  }

  lemma EachCons(s: State, es: seq<Entry>)
    requires es != []
    ensures AttemptedEach(s, es) == AttemptedEach(Attempted(s, es[0].frame, es[0].msg, Some(es[0].enqueuedAt)), es[1..])
  {
  }

  lemma {:induction false} EachTries(s: State, es: seq<Entry>, i: nat)
    requires i < |es| && Key(s.session, es[i].msg) !in s.delivered
    ensures Key(s.session, es[i].msg) in AttemptedEach(s, es).inflight
    decreases |es|
  {
    var t := Attempted(s, es[0].frame, es[0].msg, Some(es[0].enqueuedAt));
    if i == 0 { InflightStays(t, es[1..]); } else { EachTries(t, es[1..], i - 1); }
  }

  /** Giving up the queue answers its frames in their order. */
  lemma {:induction false} FailsInOrder(s: State, es: seq<Entry>)
    ensures AnsweredEach(s, es).answers == s.answers + seq(|es|, i requires 0 <= i < |es| => Answer(es[i].frame, Errored(Closed)))
    decreases |es|
  {
    if es != [] {
      FailsInOrder(Answered(s, es[0].frame, Errored(Closed)), es[1..]);
    }
  }

  // ----- Whole runs: why each frame was answered as it was ------------------------------------------------

  predicate TriesFrame(s: State, step: Step, f: nat, msg: nat) {
    (step == Deliver(msg) && !s.fenced && f == s.nextFrame)
    || (step.Drain? && PlaceOf(s, f).Queuing? && PlaceOf(s, f).entry.msg == msg)
  }

  /** What answers a frame: its attempt woke the agent, or its id counted as delivered; its attempt failed or threw;
      it came back a time to live after it was queued; its timer ran out; it made room; or the queue was given up. */
  ghost predicate AnsweredBy(s: State, step: Step, f: nat, o: Outcome) {
    if o.Delivered? then
      || (Back(s, step, f) && s.attempts[s.waiting[f].attempt] == Attempt(o.key, Finalised(Ok)))
      || (TriesFrame(s, step, f, o.key.msg) && o.key in s.delivered && o.key.session == s.session)
    else if o.cause.WakeFailed? then
      Back(s, step, f) && s.waiting[f].attempt == o.cause.attempt
      && s.attempts[o.cause.attempt].phase in {Finalised(Failed), Finalised(Threw)}
    else if o.cause.TooOld? then
      Back(s, step, f) && s.attempts[s.waiting[f].attempt].phase == Finalised(Recoverable)
      && s.waiting[f].since == Some(o.cause.since) && o.cause.since + TTL <= s.now
    else
      PlaceOf(s, f).Queuing?
      && var e := PlaceOf(s, f).entry;
         if o.cause.Expired? then Rings(s, step, e) && !Renews(s, step, e)
         else if o.cause.Evicted? then MakesRoom(s, step, e)
         else step.FailQueue?
  }

  lemma DeliveredBy(s: State, step: Step, t: State, f: nat, o: Outcome)
    requires Follows(s, step, t, f) && KeysFollow(s, step, t) && RestFollows(s, step, t)
    requires !PlaceOf(s, f).Over? && (PlaceOf(s, f).Nowhere? <==> f >= s.nextFrame) && o.Delivered?
    requires step.WaiterResumes? && step.frame in s.waiting ==> s.waiting[step.frame].attempt in s.attempts
    ensures PlaceOf(t, f) == Over(o) <==> AnsweredBy(s, step, f, o)
  {
    hide EntryOf, OutcomeOf, Tried, KeysFollow, MakesRoom;
    if step.Drain? || step.Deliver? { TriedDelivered(s, step, t, o); }
  }

  lemma TriedDelivered(s: State, step: Step, t: State, o: Outcome)
    requires KeysFollow(s, step, t) && RestFollows(s, step, t) && (step.Drain? || step.Deliver?) && o.Delivered?
    ensures forall p, msg, since | Tried(t, p, msg, since) :: p == Over(o) <==> o.key == Key(s.session, msg) && o.key in s.delivered
  {
  }

  lemma ErroredBy(s: State, step: Step, t: State, f: nat, o: Outcome)
    requires Follows(s, step, t, f) && !PlaceOf(s, f).Over? && o.Errored?
    requires PlaceOf(s, f).Attempting? ==> s.waiting[f].attempt in s.attempts
    ensures PlaceOf(t, f) == Over(o) <==> AnsweredBy(s, step, f, o)
  {
    hide EntryOf, OutcomeOf, Tried;
    TriedNotErrored(t);
    if PlaceOf(s, f).Queuing? { QueuedErroredBy(s, step, t, f, o); }
  }

  lemma QueuedErroredBy(s: State, step: Step, t: State, f: nat, o: Outcome)
    requires PlaceOf(s, f).Queuing? && QueuedFollows(s, step, t, PlaceOf(s, f).entry, PlaceOf(t, f)) && o.Errored?
    ensures PlaceOf(t, f) == Over(o) <==> AnsweredBy(s, step, f, o)
  {
    hide EntryOf, OutcomeOf;
  }

  lemma TriedNotErrored(t: State)
    ensures forall p, msg, since | Tried(t, p, msg, since) :: !(p.Over? && p.outcome.Errored?)
  {
  }

  /** A frame not yet answered is answered by a step exactly as that step calls for. */
  lemma StepAnswers(s: State, step: Step, f: nat, o: Outcome)
    requires Consistent(s) && !PlaceOf(s, f).Over?
    ensures PlaceOf(Next(s, step), f) == Over(o) <==> AnsweredBy(s, step, f, o)
  {
    hide Follows, KeysFollow, RestFollows, Next, AnsweredBy, Conserved, Truthful, Earned, Numbered;
    StepFollows(s, step, f);
    StepAttempts(s, step);
    PlacedOnce(s, f);
    if o.Delivered? { DeliveredBy(s, step, Next(s, step), f, o); } else { ErroredBy(s, step, Next(s, step), f, o); }
  }

  lemma {:induction false} RunLast(s: State, steps: seq<Step>)
    requires steps != []
    ensures Run(s, steps) == Next(Run(s, steps[..|steps| - 1]), steps[|steps| - 1])
    decreases |steps|
  {
    hide Next;
    var init := steps[..|steps| - 1];
    if |steps| == 1 {
      assert init == [] && steps[1..] == [];
    } else {
      RunLast(Next(s, steps[0]), steps[1..]);
      assert steps[1..][..|steps| - 2] == init[1..] && init[0] == steps[0];
    }
  }

  /** Step `i` of the run answers the frame. */
  ghost predicate AnsweredAt(s: State, steps: seq<Step>, f: nat, o: Outcome, i: nat)
    requires i < |steps|
  {
    AnsweredBy(Run(s, steps[..i]), steps[i], f, o)
  }

  /** Over every run, a frame ends with an answer if and only if some step of the run called for that answer. */
  lemma {:induction false} AnsweredExactly(s: State, steps: seq<Step>, f: nat, o: Outcome)
    requires Consistent(s) && !PlaceOf(s, f).Over?
    ensures PlaceOf(Run(s, steps), f) == Over(o) <==> exists i: nat :: i < |steps| && AnsweredAt(s, steps, f, o, i)
    decreases |steps|
  {
    hide Consistent, Next, Run, PlaceOf, AnsweredBy;
    if steps == [] {
      RunNone(s, steps);
    } else {
      var n := |steps| - 1;
      var init, u := steps[..n], Run(s, steps[..n]);
      RunLast(s, steps);
      RunConsistent(s, init);
      AnsweredExactly(s, init, f, o);
      assert forall i: nat | i < n :: AnsweredAt(s, steps, f, o, i) <==> AnsweredAt(s, init, f, o, i) by {
        assert forall i: nat | i < n :: init[..i] == steps[..i];
      }
      assert AnsweredAt(s, steps, f, o, n) <==> AnsweredBy(u, steps[n], f, o);
      if PlaceOf(u, f).Over? {
        OverStays(u, steps[n], f);
        NotAnsweredTwice(u, steps[n], f, o);
      } else {
        StepAnswers(u, steps[n], f, o);
      }
    }
  }

  lemma RunNone(s: State, steps: seq<Step>)
    requires steps == []
    ensures Run(s, steps) == s
  {
  }

  lemma OverStays(s: State, step: Step, f: nat)
    requires Consistent(s) && PlaceOf(s, f).Over?
    ensures PlaceOf(Next(s, step), f) == PlaceOf(s, f)
  {
    hide Consistent, Next, PlaceOf, QueuedFollows, Returned, Tried;
    StepFollows(s, step, f);
  }

  lemma NotAnsweredTwice(s: State, step: Step, f: nat, o: Outcome)
    requires Consistent(s) && PlaceOf(s, f).Over?
    ensures !AnsweredBy(s, step, f, o)
  {
    hide Conserved, Linked, Truthful, Earned, Numbered, EntryOf, OutcomeOf;
    PlacedOnce(s, f);
  }

  // ----- Whole runs: what becomes of a frame whose attempt is decided -------------------------------------

  /** The frame's waiter continues with a finished attempt somewhere in the run. */
  ghost predicate ReturnsIn(s: State, steps: seq<Step>, f: nat)
    decreases |steps|
  {
    steps != [] && (Back(s, steps[0], f) || ReturnsIn(Next(s, steps[0]), steps[1..], f))
  }

  function Decision(wake: Wake, a: nat, key: Key): Outcome {
    if wake == Ok then Delivered(key) else Errored(WakeFailed(a))
  }

  ghost predicate Decided(s: State, f: nat, w: Waiter, key: Key, wake: Wake) {
    PlaceOf(s, f) == Attempting(w) && w.attempt in s.attempts && s.attempts[w.attempt].key == key
    && s.attempts[w.attempt].phase in {Settled(wake), Finalised(wake)} && wake != Recoverable
  }

  lemma DecidedStep(s: State, step: Step, f: nat, w: Waiter, key: Key, wake: Wake)
    requires Consistent(s) && Decided(s, f, w, key, wake)
    ensures if Back(s, step, f) then PlaceOf(Next(s, step), f) == Over(Decision(wake, w.attempt, key))
            else Decided(Next(s, step), f, w, key, wake)
  {
    hide Consistent, Next, EntryOf, OutcomeOf, QueuedFollows, Tried;
    StepFollows(s, step, f);
    StepAttempts(s, step);
  }

  /** Once its attempt has settled other than recoverably, a frame waits until it returns, and is then answered:
      delivered with the attempt's key if the agent was woken, else with that attempt's failure. */
  lemma {:induction false} DecidedIsAnswered(s: State, steps: seq<Step>, f: nat, w: Waiter, key: Key, wake: Wake)
    requires Consistent(s) && Decided(s, f, w, key, wake)
    ensures PlaceOf(Run(s, steps), f) == if ReturnsIn(s, steps, f) then Over(Decision(wake, w.attempt, key)) else Attempting(w)
    decreases |steps|
  {
    hide Consistent, Next, PlaceOf, Decision, Back;
    if steps == [] {
      DecidedWaits(s, f, w, key, wake);
    } else {
      DecidedStep(s, steps[0], f, w, key, wake);
      StepConsistent(s, steps[0]);
      if Back(s, steps[0], f) {
        StaysOver(Next(s, steps[0]), steps[1..], f);
      } else {
        DecidedIsAnswered(Next(s, steps[0]), steps[1..], f, w, key, wake);
      }
    }
  }

  lemma DecidedWaits(s: State, f: nat, w: Waiter, key: Key, wake: Wake)
    requires Decided(s, f, w, key, wake)
    ensures PlaceOf(s, f) == Attempting(w)
  {
  }

  lemma {:induction false} StaysOver(s: State, steps: seq<Step>, f: nat)
    requires Consistent(s) && PlaceOf(s, f).Over?
    ensures PlaceOf(Run(s, steps), f) == PlaceOf(s, f)
    decreases |steps|
  {
    hide Consistent, Next, PlaceOf;
    if steps != [] {
      OverStays(s, steps[0], f);
      StepConsistent(s, steps[0]);
      StaysOver(Next(s, steps[0]), steps[1..], f);
    }
  }
}
