/** User-message delivery (pi-extension/src/index.ts): in-flight coalescing, the delivered-id check, and a
    two-place replay queue with a time to live, renewal and an absolute deadline.

    A step is one uninterrupted stretch of the event loop. What the agent answers to a wake, the clock and
    whether a replacement is in progress are inputs of the steps. */
module UserDelivery {
  import opened Prelude

  /** The dedupe key: the session an attempt started in, and the client's message id. */
  datatype Key = Key(session: nat, msg: nat)

  datatype Wake = Ok | Recoverable | Failed | Threw

  /** A delivery attempt: waking the agent; settled; its `finally` has run, so its waiters may continue. */
  datatype Phase = Waking | Settled(wake: Wake) | Finalised(wake: Wake)
  datatype Attempt = Attempt(key: Key, phase: Phase)

  /** A frame awaiting an attempt; `since` is the enqueue time of a replayed queue entry. */
  datatype Waiter = Waiter(msg: nat, attempt: nat, since: Option<nat>)

  datatype Entry = Entry(frame: nat, msg: nat, queueId: nat, enqueuedAt: nat, dueAt: nat, renewals: nat)

  /** Why a frame is answered with an error: its attempt failed or threw, it came back too old, its timer ran
      out, it had to make room, or the queue was given up. */
  datatype Cause = WakeFailed(attempt: nat) | TooOld(since: nat) | Expired | Evicted | Closed
  datatype Outcome = Delivered(key: Key) | Errored(cause: Cause)
  datatype Answer = Answer(frame: nat, outcome: Outcome)

  const QUEUE_MAX: nat := 2
  const TTL: nat := 5_000
  const DEADLINE: nat := 60_000

  datatype State = State(
    session: nat,
    now: nat,
    fenced: bool,
    delivered: set<Key>,
    inflight: map<Key, nat>,
    attempts: map<nat, Attempt>,
    waiting: map<nat, Waiter>,
    queue: seq<Entry>,
    nextFrame: nat,
    nextAttempt: nat,
    nextQueueId: nat,
    answers: seq<Answer>,        // history: how each settled frame was answered
    wakes: seq<Key>)             // history: successful wakes

  function Initial(session: nat, now: nat): State {
    State(session, now, false, {}, map[], map[], map[], [], 0, 0, 0, [], [])
  }

  // ----- Steps --------------------------------------------------------------------------

  datatype Step =
    | Deliver(msg: nat)
    | WakeSettles(attempt: nat, wake: Wake)
    | AttemptFinalises(attempt: nat)
    | WaiterResumes(frame: nat)
    | Drain
    | TimerFires(queueId: nat, replacing: bool)
    | FailQueue
    | SwitchSession(session: nat)
    | Reset
    | Fence
    | Unfence                    // the fresh-session shutdown found its runtime stale
    | Tick(to: nat)

  function Answered(s: State, frame: nat, o: Outcome): State { s.(answers := s.answers + [Answer(frame, o)]) }

  /** `_attemptUserDelivery`: suppress, coalesce, or wake. */
  function Attempted(s: State, frame: nat, msg: nat, since: Option<nat>): State {
    var key := Key(s.session, msg);
    if key in s.delivered then Answered(s, frame, Delivered(key))
    else if key in s.inflight then s.(waiting := s.waiting[frame := Waiter(msg, s.inflight[key], since)])
    else
      s.(attempts := s.attempts[s.nextAttempt := Attempt(key, Waking)], inflight := s.inflight[key := s.nextAttempt],
         waiting := s.waiting[frame := Waiter(msg, s.nextAttempt, since)], nextAttempt := s.nextAttempt + 1)
  }

  function Received(s: State, msg: nat): State {
    if s.fenced then s else Attempted(s.(nextFrame := s.nextFrame + 1), s.nextFrame, msg, None)
  }

  function WakeSettled(s: State, a: nat, wake: Wake): State {
    if a !in s.attempts || s.attempts[a].phase != Waking then s
    else
      var key := s.attempts[a].key;
      var t := s.(attempts := s.attempts[a := Attempt(key, Settled(wake))]);
      if wake != Ok then t else t.(delivered := s.delivered + {key}, wakes := s.wakes + [key])
  }

  /** The `finally`: the in-flight entry goes by key, whichever attempt holds it. */
  function AttemptFinalised(s: State, a: nat): State {
    if a !in s.attempts || !s.attempts[a].phase.Settled? then s
    else
      var key := s.attempts[a].key;
      s.(attempts := s.attempts[a := Attempt(key, Finalised(s.attempts[a].phase.wake))], inflight := s.inflight - {key})
  }

  function Due(now: nat, enqueuedAt: nat): nat {
    var remaining := TTL - (now - enqueuedAt);
    now + if remaining < 0 then 0 else remaining
  }

  function Enqueued(s: State, frame: nat, msg: nat, enqueuedAt: nat): State {
    var t := if |s.queue| >= QUEUE_MAX then Answered(s, s.queue[0].frame, Errored(Evicted)).(queue := s.queue[1..]) else s;
    t.(queue := t.queue + [Entry(frame, msg, s.nextQueueId, enqueuedAt, Due(s.now, enqueuedAt), 0)],
       nextQueueId := s.nextQueueId + 1)
  }

  /** A waiter continues with its attempt's result. */
  function WaiterResumed(s: State, frame: nat): State {
    if frame !in s.waiting || s.waiting[frame].attempt !in s.attempts then s
    else
      var w := s.waiting[frame];
      var attempt := s.attempts[w.attempt];
      if !attempt.phase.Finalised? then s
      else
        var t := s.(waiting := s.waiting - {frame});
        match attempt.phase.wake
        case Ok => Answered(t, frame, Delivered(attempt.key))
        case Failed => Answered(t, frame, Errored(WakeFailed(w.attempt)))
        case Threw => Answered(t, frame, Errored(WakeFailed(w.attempt)))
        case Recoverable =>
          if w.since.None? then Enqueued(t, frame, w.msg, s.now)
          else if s.now - w.since.value >= TTL then Answered(t, frame, Errored(TooOld(w.since.value)))
          else Enqueued(t, frame, w.msg, w.since.value)
  }

  function AttemptedEach(s: State, es: seq<Entry>): State
    decreases |es|
  {
    if es == [] then s
    else AttemptedEach(Attempted(s, es[0].frame, es[0].msg, Some(es[0].enqueuedAt)), es[1..])
  }

  function AnsweredEach(s: State, es: seq<Entry>): State
    decreases |es|
  {
    if es == [] then s else AnsweredEach(Answered(s, es[0].frame, Errored(Closed)), es[1..])
  }

  /** The place of the entry with this id, or the length of the queue. */
  function IndexOf(q: seq<Entry>, queueId: nat): (r: nat)
    ensures r <= |q| && (r < |q| ==> q[r].queueId == queueId)
    ensures forall j | 0 <= j < r :: q[j].queueId != queueId
  {
    if q == [] then 0 else if q[0].queueId == queueId then 0 else 1 + IndexOf(q[1..], queueId)
  }

  function Fired(s: State, queueId: nat, replacing: bool): State {
    var i := IndexOf(s.queue, queueId);
    if i == |s.queue| || s.now < s.queue[i].dueAt then s      // cleared, or not due yet
    else
      var e := s.queue[i];
      if replacing && s.now - e.enqueuedAt < DEADLINE
      then s.(queue := s.queue[i := e.(dueAt := Due(s.now, s.now), renewals := e.renewals + 1)])
      else Answered(s, e.frame, Errored(Expired)).(queue := s.queue[..i] + s.queue[i + 1..])
  }

  function Forgotten(s: State): State { s.(delivered := {}, inflight := map[]) }

  function Next(s: State, step: Step): State {
    match step
    case Deliver(msg) => Received(s, msg)
    case WakeSettles(a, wake) => WakeSettled(s, a, wake)
    case AttemptFinalises(a) => AttemptFinalised(s, a)
    case WaiterResumes(frame) => WaiterResumed(s, frame)
    case Drain => AttemptedEach(s.(queue := []), s.queue)
    case TimerFires(queueId, replacing) => Fired(s, queueId, replacing)
    case FailQueue => AnsweredEach(s.(queue := []), s.queue)
    case SwitchSession(session) => s.(session := session)
    case Reset => Forgotten(s)
    case Fence => s.(fenced := true)
    case Unfence => s.(fenced := false)
    case Tick(to) => if to < s.now then s else s.(now := to)
  }

  function Run(s: State, steps: seq<Step>): State
    decreases |steps|
  {
    if steps == [] then s else Run(Next(s, steps[0]), steps[1..])
  }

  // ----- No frame is lost or settled twice ---------------------------------------------------

  function Queued(q: seq<Entry>, frame: nat): nat {
    if q == [] then 0 else (if q[0].frame == frame then 1 else 0) + Queued(q[1..], frame)
  }

  function AnswersTo(answers: seq<Answer>, frame: nat): nat {
    if answers == [] then 0
    else AnswersTo(answers[..|answers| - 1], frame) + if answers[|answers| - 1].frame == frame then 1 else 0
  }

  /** How many places hold the frame: attempting, queued, or answered. */
  function Places(s: State, frame: nat): nat {
    (if frame in s.waiting then 1 else 0) + Queued(s.queue, frame) + AnswersTo(s.answers, frame)
  }

  /** Each admitted frame is in exactly one place, and no other frame is in any. */
  ghost predicate Conserved(s: State) {
    forall f: nat :: Places(s, f) == if f < s.nextFrame then 1 else 0
  }

  /** Waiters await existing attempts; the in-flight table holds unfinished attempts under their own keys. */
  ghost predicate Linked(inflight: map<Key, nat>, attempts: map<nat, Attempt>, waiting: map<nat, Waiter>, nextAttempt: nat) {
    && (forall f | f in waiting :: waiting[f].attempt in attempts)
    && (forall k | k in inflight :: inflight[k] in attempts && attempts[inflight[k]].key == k
                                    && !attempts[inflight[k]].phase.Finalised?)
    && (forall a | a in attempts :: a < nextAttempt)
  }

  predicate Succeeded(p: Phase) { !p.Waking? && p.wake == Ok }

  /** Nothing counts as delivered unless the agent was woken for it. */
  ghost predicate Truthful(delivered: set<Key>, attempts: map<nat, Attempt>, answers: seq<Answer>, wakes: seq<Key>) {
    && (forall k | k in delivered :: k in wakes)
    && (forall a | a in attempts && Succeeded(attempts[a].phase) :: attempts[a].key in wakes)
    && (forall i | 0 <= i < |answers| && answers[i].outcome.Delivered? :: answers[i].outcome.key in wakes)
  }

  predicate Deserved(attempts: map<nat, Attempt>, now: nat, c: Cause) {
    && (c.WakeFailed? ==> c.attempt in attempts && attempts[c.attempt].phase in {Finalised(Failed), Finalised(Threw)})
    && (c.TooOld? ==> c.since + TTL <= now)
  }

  /** An error is blamed on a wake only if it failed or threw, and on age only past the time to live. */
  ghost predicate Earned(attempts: map<nat, Attempt>, now: nat, answers: seq<Answer>) {
    forall i | 0 <= i < |answers| && answers[i].outcome.Errored? :: Deserved(attempts, now, answers[i].outcome.cause)
  }

  /** The queue is in the order of its ids. */
  ghost predicate Numbered(q: seq<Entry>, next: nat) {
    && (forall i | 0 <= i < |q| :: q[i].queueId < next)
    && (forall i, j | 0 <= i < j < |q| :: q[i].queueId < q[j].queueId)
  }

  ghost predicate Consistent(s: State) {
    && Conserved(s) && |s.queue| <= QUEUE_MAX && Numbered(s.queue, s.nextQueueId)
    && Linked(s.inflight, s.attempts, s.waiting, s.nextAttempt)
    && Truthful(s.delivered, s.attempts, s.answers, s.wakes) && Earned(s.attempts, s.now, s.answers)
  }

  lemma InitialConsistent(session: nat, now: nat)
    ensures Consistent(Initial(session, now))
  {
  }

  lemma {:induction false} QueuedConcat(a: seq<Entry>, b: seq<Entry>, frame: nat)
    ensures Queued(a + b, frame) == Queued(a, frame) + Queued(b, frame)
  {
    if a == [] {
      assert a + b == b;
    } else {
      QueuedConcat(a[1..], b, frame);
      assert (a + b)[1..] == a[1..] + b;
    }
  }

  lemma QueuedOne(e: Entry, frame: nat)
    ensures Queued([e], frame) == if e.frame == frame then 1 else 0
  {
    assert [e][1..] == [];
  }

  lemma AnsweredPlaces(s: State, frame: nat, o: Outcome, f: nat)
    ensures Places(Answered(s, frame, o), f) == Places(s, f) + if f == frame then 1 else 0
  {
    assert (s.answers + [Answer(frame, o)])[..|s.answers|] == s.answers;
  }

  /** An attempt takes on a frame held nowhere else. */
  lemma AttemptedPlaces(s: State, frame: nat, msg: nat, since: Option<nat>, f: nat)
    requires Places(s, frame) == 0
    ensures Places(Attempted(s, frame, msg, since), f) == Places(s, f) + if f == frame then 1 else 0
  {
    AnsweredPlaces(s, frame, Delivered(Key(s.session, msg)), f);
  }

  lemma EnqueuedPlaces(s: State, frame: nat, msg: nat, at: nat, f: nat)
    ensures Places(Enqueued(s, frame, msg, at), f) == Places(s, f) + if f == frame then 1 else 0
    ensures |s.queue| <= QUEUE_MAX ==> |Enqueued(s, frame, msg, at).queue| <= QUEUE_MAX
  {
    var t := if |s.queue| >= QUEUE_MAX then Answered(s, s.queue[0].frame, Errored(Evicted)).(queue := s.queue[1..]) else s;
    if |s.queue| >= QUEUE_MAX { AnsweredPlaces(s, s.queue[0].frame, Errored(Evicted), f); }
    assert Places(t, f) == Places(s, f);
    var e := Entry(frame, msg, s.nextQueueId, at, Due(s.now, at), 0);
    QueuedConcat(t.queue, [e], f);
    QueuedOne(e, f);
  }

  lemma {:induction false} AnsweredEachPlaces(s: State, es: seq<Entry>, f: nat)
    ensures Places(AnsweredEach(s, es), f) == Places(s, f) + Queued(es, f)
    ensures AnsweredEach(s, es) == s.(answers := AnsweredEach(s, es).answers)
    decreases |es|
  {
    if es != [] {
      AnsweredPlaces(s, es[0].frame, Errored(Closed), f);
      AnsweredEachPlaces(Answered(s, es[0].frame, Errored(Closed)), es[1..], f);
    }
  }

  lemma {:induction false} AttemptedEachPlaces(s: State, es: seq<Entry>, f: nat)
    requires forall g: nat :: Places(s, g) + Queued(es, g) <= 1
    ensures Places(AttemptedEach(s, es), f) == Places(s, f) + Queued(es, f)
    decreases |es|
  {
    hide Places, Attempted;
    if es != [] {
      var e := es[0];
      var t := Attempted(s, e.frame, e.msg, Some(e.enqueuedAt));
      assert Queued(es, e.frame) >= 1;
      forall g: nat ensures Places(t, g) + Queued(es[1..], g) == Places(s, g) + Queued(es, g) {
        AttemptedPlaces(s, e.frame, e.msg, Some(e.enqueuedAt), g);
      }
      AttemptedEachPlaces(t, es[1..], f);
    }
  }

  lemma ReceivedConserved(s: State, msg: nat)
    requires Conserved(s)
    ensures Conserved(Received(s, msg))
  {
    hide Places, Attempted;
    if !s.fenced {
      var t := s.(nextFrame := s.nextFrame + 1);
      forall f: nat ensures Places(t, f) == Places(s, f) { SamePlaces(s, t, f); }
      forall f: nat ensures Places(Received(s, msg), f) == if f < s.nextFrame + 1 then 1 else 0 {
        assert Places(s, f) == if f < s.nextFrame then 1 else 0;
        assert Places(s, s.nextFrame) == 0;
        AttemptedPlaces(t, s.nextFrame, msg, None, f);
      }
      AttemptedFrames(t, s.nextFrame, msg, None);
    }
  }

  lemma AttemptedFrames(s: State, frame: nat, msg: nat, since: Option<nat>)
    ensures var t := Attempted(s, frame, msg, since);
            t.nextFrame == s.nextFrame && t.queue == s.queue && t.now == s.now && t.nextQueueId == s.nextQueueId
            && t.wakes == s.wakes && t.delivered == s.delivered && t.session == s.session
            && t.fenced == s.fenced
  {
  }

  lemma SamePlaces(s: State, t: State, f: nat)
    requires s.waiting == t.waiting && s.queue == t.queue && s.answers == t.answers
    ensures Places(s, f) == Places(t, f)
  {
  }

  lemma WaiterPlaces(s: State, frame: nat, f: nat)
    requires frame in s.waiting
    ensures Places(s.(waiting := s.waiting - {frame}), f) + (if f == frame then 1 else 0) == Places(s, f)
  {
  }

  lemma WaiterResumedConserved(s: State, frame: nat)
    requires Conserved(s) && |s.queue| <= QUEUE_MAX
    ensures Conserved(WaiterResumed(s, frame)) && |WaiterResumed(s, frame).queue| <= QUEUE_MAX
  {
    hide Places, Enqueued;
    if frame in s.waiting {
      var w := s.waiting[frame];
      var t := s.(waiting := s.waiting - {frame});
      var u := WaiterResumed(s, frame);
      forall f: nat ensures Places(u, f) == Places(s, f) && (u == s || |u.queue| <= QUEUE_MAX) && u.nextFrame == s.nextFrame {
        WaiterPlaces(s, frame, f);
        EnqueuedPlaces(t, frame, w.msg, s.now, f);
        EnqueuedFrames(t, frame, w.msg, s.now);
        if w.since.Some? {
          EnqueuedPlaces(t, frame, w.msg, w.since.value, f);
          EnqueuedFrames(t, frame, w.msg, w.since.value);
        }
        AnsweredPlaces(t, frame, Errored(WakeFailed(w.attempt)), f);
        if w.since.Some? { AnsweredPlaces(t, frame, Errored(TooOld(w.since.value)), f); }
        if w.attempt in s.attempts { AnsweredPlaces(t, frame, Delivered(s.attempts[w.attempt].key), f); }
      }
      assert Places(u, 0) == Places(s, 0);
    }
  }

  lemma EnqueuedFrames(s: State, frame: nat, msg: nat, at: nat)
    ensures var t := Enqueued(s, frame, msg, at);
            t == s.(queue := t.queue, nextQueueId := t.nextQueueId, answers := t.answers)
  {
  }

  lemma QueuedReplaced(q: seq<Entry>, i: nat, r: Entry, frame: nat)
    requires i < |q| && r.frame == q[i].frame
    ensures Queued(q[i := r], frame) == Queued(q, frame)
  {
    assert q == q[..i] + ([q[i]] + q[i + 1..]) && q[i := r] == q[..i] + ([r] + q[i + 1..]);
    QueuedConcat(q[..i], [q[i]] + q[i + 1..], frame);
    QueuedConcat(q[..i], [r] + q[i + 1..], frame);
    QueuedConcat([q[i]], q[i + 1..], frame);
    QueuedConcat([r], q[i + 1..], frame);
    QueuedOne(q[i], frame);
    QueuedOne(r, frame);
  }

  lemma QueuedRemoved(q: seq<Entry>, i: nat, frame: nat)
    requires i < |q|
    ensures Queued(q[..i] + q[i + 1..], frame) + (if q[i].frame == frame then 1 else 0) == Queued(q, frame)
  {
    assert q == q[..i] + ([q[i]] + q[i + 1..]);
    QueuedConcat(q[..i], [q[i]] + q[i + 1..], frame);
    QueuedConcat([q[i]], q[i + 1..], frame);
    QueuedConcat(q[..i], q[i + 1..], frame);
    QueuedOne(q[i], frame);
  }

  lemma FiredPlaces(s: State, queueId: nat, replacing: bool, f: nat)
    ensures Places(Fired(s, queueId, replacing), f) == Places(s, f)
  {
    hide Queued, AnswersTo;
    var i := IndexOf(s.queue, queueId);
    if i < |s.queue| && s.now >= s.queue[i].dueAt {
      var e := s.queue[i];
      QueuedReplaced(s.queue, i, e.(dueAt := Due(s.now, s.now), renewals := e.renewals + 1), f);
      QueuedRemoved(s.queue, i, f);
      AnsweredPlaces(s, e.frame, Errored(Expired), f);
    }
  }

  lemma FiredConserved(s: State, queueId: nat, replacing: bool)
    requires Conserved(s) && |s.queue| <= QUEUE_MAX
    ensures Conserved(Fired(s, queueId, replacing)) && |Fired(s, queueId, replacing).queue| <= QUEUE_MAX
  {
    hide Places;
    forall f: nat ensures Places(Fired(s, queueId, replacing), f) == if f < s.nextFrame then 1 else 0 {
      assert Places(s, f) == if f < s.nextFrame then 1 else 0;
      FiredPlaces(s, queueId, replacing, f);
    }
  }

  lemma DrainedPlaces(s: State, f: nat)
    ensures Places(s.(queue := []), f) + Queued(s.queue, f) == Places(s, f)
  {
  }

  lemma {:induction false} AttemptedEachFrames(s: State, es: seq<Entry>)
    ensures var t := AttemptedEach(s, es);
            t == s.(waiting := t.waiting, inflight := t.inflight, attempts := t.attempts, nextAttempt := t.nextAttempt,
                    answers := t.answers)
    decreases |es|
  {
    if es != [] { AttemptedEachFrames(Attempted(s, es[0].frame, es[0].msg, Some(es[0].enqueuedAt)), es[1..]); }
  }

  lemma DrainConserved(s: State)
    requires Conserved(s)
    ensures Conserved(Next(s, Drain)) && |Next(s, Drain).queue| == 0
  {
    hide Places, AttemptedEach;
    var t := s.(queue := []);
    forall f: nat ensures Places(t, f) + Queued(s.queue, f) == if f < s.nextFrame then 1 else 0 {
      assert Places(s, f) == if f < s.nextFrame then 1 else 0;
      DrainedPlaces(s, f);
    }
    forall f: nat ensures Places(Next(s, Drain), f) == if f < s.nextFrame then 1 else 0 { AttemptedEachPlaces(t, s.queue, f); }
    AttemptedEachFrames(t, s.queue);
  }

  lemma FailQueueConserved(s: State)
    requires Conserved(s)
    ensures Conserved(Next(s, FailQueue)) && |Next(s, FailQueue).queue| == 0
  {
    hide Places, AnsweredEach;
    forall f: nat ensures Places(Next(s, FailQueue), f) == if f < s.nextFrame then 1 else 0 {
      assert Places(s, f) == if f < s.nextFrame then 1 else 0;
      DrainedPlaces(s, f);
      AnsweredEachPlaces(s.(queue := []), s.queue, f);
    }
    AnsweredEachPlaces(s.(queue := []), s.queue, 0);
  }

  lemma StepConserved(s: State, step: Step)
    requires Conserved(s) && |s.queue| <= QUEUE_MAX
    ensures Conserved(Next(s, step)) && |Next(s, step).queue| <= QUEUE_MAX
  {
    hide Places, Received, WaiterResumed, Fired, AttemptedEach, AnsweredEach;
    match step
    case Deliver(msg) =>
      ReceivedConserved(s, msg);
      ReceivedQueue(s, msg);
    case WaiterResumes(frame) => WaiterResumedConserved(s, frame);
    case Drain => DrainConserved(s);
    case TimerFires(queueId, replacing) => FiredConserved(s, queueId, replacing);
    case FailQueue => FailQueueConserved(s);
    case _ =>
      var t := Next(s, step);
      forall f: nat ensures Places(t, f) == if f < s.nextFrame then 1 else 0 {
        assert Places(s, f) == if f < s.nextFrame then 1 else 0;
        SamePlaces(s, t, f);
      }
  }

  lemma ReceivedQueue(s: State, msg: nat)
    ensures Received(s, msg).queue == s.queue
  {
  }

  // ----- Delivered means woken -----------------------------------------------------------------

  ghost predicate Sound(s: State) {
    && Linked(s.inflight, s.attempts, s.waiting, s.nextAttempt)
    && Truthful(s.delivered, s.attempts, s.answers, s.wakes)
  }

  lemma AttemptedSound(s: State, frame: nat, msg: nat, since: Option<nat>)
    requires Sound(s)
    ensures Sound(Attempted(s, frame, msg, since))
  {
    var key := Key(s.session, msg);
    if key in s.delivered {
      hide Linked;
    } else if key in s.inflight {
      hide Truthful;
    } else {
      hide Truthful, Linked;
      AttemptStartedLinked(s.inflight, s.attempts, s.waiting, s.nextAttempt, frame, key, msg, since);
      AttemptStartedTruthful(s.delivered, s.attempts, s.answers, s.wakes, s.nextAttempt, key);
    }
  }

  lemma AttemptStartedLinked(inflight: map<Key, nat>, attempts: map<nat, Attempt>, waiting: map<nat, Waiter>, n: nat,
                             frame: nat, key: Key, msg: nat, since: Option<nat>)
    requires Linked(inflight, attempts, waiting, n)
    ensures Linked(inflight[key := n], attempts[n := Attempt(key, Waking)], waiting[frame := Waiter(msg, n, since)], n + 1)
  {
  }

  lemma AttemptStartedTruthful(delivered: set<Key>, attempts: map<nat, Attempt>, answers: seq<Answer>, wakes: seq<Key>,
                               n: nat, key: Key)
    requires Truthful(delivered, attempts, answers, wakes)
    ensures Truthful(delivered, attempts[n := Attempt(key, Waking)], answers, wakes)
  {
  }

  lemma {:induction false} AttemptedEachSound(s: State, es: seq<Entry>)
    requires Sound(s)
    ensures Sound(AttemptedEach(s, es))
    decreases |es|
  {
    hide Sound, Attempted;
    if es != [] {
      AttemptedSound(s, es[0].frame, es[0].msg, Some(es[0].enqueuedAt));
      AttemptedEachSound(Attempted(s, es[0].frame, es[0].msg, Some(es[0].enqueuedAt)), es[1..]);
    }
  }

  lemma {:induction false} AnsweredEachSound(s: State, es: seq<Entry>)
    requires Sound(s)
    ensures Sound(AnsweredEach(s, es))
    decreases |es|
  {
    hide Linked;
    if es != [] { AnsweredEachSound(Answered(s, es[0].frame, Errored(Closed)), es[1..]); }
  }

  lemma WakeSettledSound(s: State, a: nat, wake: Wake)
    requires Sound(s)
    ensures Sound(WakeSettled(s, a, wake))
  {
    hide Linked, Truthful;
    if a in s.attempts && s.attempts[a].phase == Waking {
      WakeSettledLinked(s.inflight, s.attempts, s.waiting, s.nextAttempt, a, wake);
      WakeSettledTruthful(s.delivered, s.attempts, s.answers, s.wakes, a, wake);
    }
  }

  lemma WakeSettledLinked(inflight: map<Key, nat>, attempts: map<nat, Attempt>, waiting: map<nat, Waiter>, n: nat,
                          a: nat, wake: Wake)
    requires Linked(inflight, attempts, waiting, n) && a in attempts
    ensures Linked(inflight, attempts[a := Attempt(attempts[a].key, Settled(wake))], waiting, n)
  {
  }

  lemma WakeSettledTruthful(delivered: set<Key>, attempts: map<nat, Attempt>, answers: seq<Answer>, wakes: seq<Key>,
                            a: nat, wake: Wake)
    requires Truthful(delivered, attempts, answers, wakes) && a in attempts
    ensures var key := attempts[a].key;
            var later := attempts[a := Attempt(key, Settled(wake))];
            if wake != Ok then Truthful(delivered, later, answers, wakes)
            else Truthful(delivered + {key}, later, answers, wakes + [key])
  {
    var key := attempts[a].key;
    assert key in wakes + [key];
    assert forall k | k in wakes :: k in wakes + [key];
  }

  lemma AttemptFinalisedSound(s: State, a: nat)
    requires Sound(s)
    ensures Sound(AttemptFinalised(s, a))
  {
  }

  lemma EnqueuedSound(s: State, frame: nat, msg: nat, at: nat)
    requires Sound(s)
    ensures Sound(Enqueued(s, frame, msg, at))
  {
    hide Linked;
  }

  lemma AnsweredSound(s: State, frame: nat, o: Outcome)
    requires Sound(s) && (o.Delivered? ==> o.key in s.wakes)
    ensures Sound(Answered(s, frame, o))
  {
    hide Linked;
  }

  lemma UnawaitedSound(s: State, frame: nat)
    requires Sound(s)
    ensures Sound(s.(waiting := s.waiting - {frame}))
    ensures forall a | a in s.attempts && Succeeded(s.attempts[a].phase) :: s.attempts[a].key in s.wakes
  {
  }

  lemma WaiterResumedSound(s: State, frame: nat)
    requires Sound(s)
    ensures Sound(WaiterResumed(s, frame))
  {
    hide Enqueued, Answered, Sound;
    if frame in s.waiting && s.waiting[frame].attempt in s.attempts {
      var w := s.waiting[frame];
      var t := s.(waiting := s.waiting - {frame});
      UnawaitedSound(s, frame);
      match s.attempts[w.attempt].phase
      case Finalised(wake) =>
        if wake == Recoverable {
          EnqueuedSound(t, frame, w.msg, if w.since.Some? then w.since.value else s.now);
          if w.since.Some? { AnsweredSound(t, frame, Errored(TooOld(w.since.value))); }
        } else {
          AnsweredSound(t, frame, if wake == Ok then Delivered(s.attempts[w.attempt].key) else Errored(WakeFailed(w.attempt)));
        }
      case _ =>
    }
  }

  lemma StepSound(s: State, step: Step)
    requires Sound(s)
    ensures Sound(Next(s, step))
  {
    hide Attempted, WakeSettled, AttemptFinalised, WaiterResumed, AttemptedEach, AnsweredEach, IndexOf;
    match step
    case Deliver(msg) => AttemptedSound(s.(nextFrame := s.nextFrame + 1), s.nextFrame, msg, None);
    case WakeSettles(a, wake) => WakeSettledSound(s, a, wake);
    case AttemptFinalises(a) => AttemptFinalisedSound(s, a);
    case WaiterResumes(frame) => WaiterResumedSound(s, frame);
    case Drain => AttemptedEachSound(s.(queue := []), s.queue);
    case FailQueue => AnsweredEachSound(s.(queue := []), s.queue);
    case TimerFires(_, _) => hide Linked;
    case _ =>
  }

  // ----- Errors are earned, and the queue keeps its order ------------------------------------------

  /** The answers after the first `n` blame nothing undeserved. */
  ghost predicate EarnedFrom(t: State, n: nat) {
    forall i | n <= i < |t.answers| && t.answers[i].outcome.Errored? :: Deserved(t.attempts, t.now, t.answers[i].outcome.cause)
  }

  lemma {:induction false} EachEarned(s: State, es: seq<Entry>)
    ensures forall i | |s.answers| <= i < |AttemptedEach(s, es).answers| :: AttemptedEach(s, es).answers[i].outcome.Delivered?
    ensures forall i | |s.answers| <= i < |AnsweredEach(s, es).answers| :: AnsweredEach(s, es).answers[i].outcome == Errored(Closed)
    decreases |es|
  {
    if es != [] {
      var t, u := Answered(s, es[0].frame, Errored(Closed)), Attempted(s, es[0].frame, es[0].msg, Some(es[0].enqueuedAt));
      EachAnswerStays(t, es[1..]);
      EachAnswerStays(u, es[1..]);
      EachEarned(t, es[1..]);
      EachEarned(u, es[1..]);
    }
  }

  lemma WaiterEarned(s: State, frame: nat)
    ensures EarnedFrom(WaiterResumed(s, frame), |s.answers|)
  {
  }

  lemma FiredEarned(s: State, queueId: nat, replacing: bool)
    ensures EarnedFrom(Fired(s, queueId, replacing), |s.answers|)
  {
    hide IndexOf;
  }

  /** New errors are deserved. */
  lemma StepEarnedFrom(s: State, step: Step)
    ensures EarnedFrom(Next(s, step), |s.answers|)
  {
    hide AttemptedEach, AnsweredEach, WaiterResumed, Fired;
    match step
    case WaiterResumes(frame) => WaiterEarned(s, frame);
    case TimerFires(queueId, replacing) => FiredEarned(s, queueId, replacing);
    case Drain => EachEarned(s.(queue := []), s.queue);
    case FailQueue => EachEarned(s.(queue := []), s.queue);
    case _ =>
  }

  lemma {:induction false} AttemptedEachFinished(s: State, es: seq<Entry>)
    requires forall a | a in s.attempts :: a < s.nextAttempt
    ensures forall a | a in s.attempts :: a in AttemptedEach(s, es).attempts && AttemptedEach(s, es).attempts[a] == s.attempts[a]
    decreases |es|
  {
    if es != [] { AttemptedEachFinished(Attempted(s, es[0].frame, es[0].msg, Some(es[0].enqueuedAt)), es[1..]); }
  }

  /** What has deserved blame keeps deserving it. */
  lemma StepFinished(s: State, step: Step, a: nat)
    requires Sound(s) && a in s.attempts && s.attempts[a].phase.Finalised?
    ensures a in Next(s, step).attempts && Next(s, step).attempts[a] == s.attempts[a]
  {
    hide AttemptedEach, AnsweredEach, WaiterResumed, Fired, Truthful;
    match step
    case WaiterResumes(frame) => WaiterResumedKeeps(s, frame);
    case TimerFires(queueId, replacing) => FiredKeeps(s, queueId, replacing);
    case Drain => AttemptedEachFinished(s.(queue := []), s.queue);
    case FailQueue => AnsweredEachKeeps(s.(queue := []), s.queue);
    case _ =>
  }

  lemma StepLater(s: State, step: Step)
    ensures s.now <= Next(s, step).now
  {
    hide AttemptedEach, AnsweredEach, WaiterResumed, Fired;
    match step
    case WaiterResumes(frame) => WaiterResumedKeeps(s, frame);
    case TimerFires(queueId, replacing) => FiredKeeps(s, queueId, replacing);
    case Drain => AttemptedEachFrames(s.(queue := []), s.queue);
    case FailQueue => AnsweredEachKeeps(s.(queue := []), s.queue);
    case _ =>
  }

  lemma StepEarned(s: State, step: Step)
    requires Sound(s) && Earned(s.attempts, s.now, s.answers)
    ensures Earned(Next(s, step).attempts, Next(s, step).now, Next(s, step).answers)
  {
    hide Next, Sound;
    var t := Next(s, step);
    StepEarnedFrom(s, step);
    StepAnswersStay(s, step);
    StepLater(s, step);
    forall i | 0 <= i < |t.answers| && t.answers[i].outcome.Errored? ensures Deserved(t.attempts, t.now, t.answers[i].outcome.cause) {
      if i < |s.answers| {
        assert t.answers[i] == s.answers[i];
        var c := s.answers[i].outcome.cause;
        if c.WakeFailed? { StepFinished(s, step, c.attempt); }
      }
    }
  }

  lemma EnqueuedNumbered(s: State, frame: nat, msg: nat, at: nat)
    requires Numbered(s.queue, s.nextQueueId)
    ensures Numbered(Enqueued(s, frame, msg, at).queue, Enqueued(s, frame, msg, at).nextQueueId)
  {
    hide Due;
  }

  lemma WaiterNumbered(s: State, frame: nat)
    requires Numbered(s.queue, s.nextQueueId)
    ensures Numbered(WaiterResumed(s, frame).queue, WaiterResumed(s, frame).nextQueueId)
  {
    hide Enqueued, Numbered;
    if frame in s.waiting {
      var w := s.waiting[frame];
      var t := s.(waiting := s.waiting - {frame});
      EnqueuedNumbered(t, frame, w.msg, s.now);
      if w.since.Some? { EnqueuedNumbered(t, frame, w.msg, w.since.value); }
    }
  }

  lemma FiredNumbered(s: State, queueId: nat, replacing: bool)
    requires Numbered(s.queue, s.nextQueueId)
    ensures Numbered(Fired(s, queueId, replacing).queue, Fired(s, queueId, replacing).nextQueueId)
  {
    hide IndexOf, Due;
  }

  lemma StepNumbered(s: State, step: Step)
    requires Numbered(s.queue, s.nextQueueId)
    ensures Numbered(Next(s, step).queue, Next(s, step).nextQueueId)
  {
    hide AttemptedEach, AnsweredEach, WaiterResumed, Fired;
    match step
    case WaiterResumes(frame) => WaiterNumbered(s, frame);
    case TimerFires(queueId, replacing) => FiredNumbered(s, queueId, replacing);
    case Drain => AttemptedEachFrames(s.(queue := []), s.queue);
    case FailQueue => AnsweredEachKeeps(s.(queue := []), s.queue);
    case _ =>
  }

  /** Every admitted frame stays in exactly one place, the queue within its two places and in order; no frame is
      answered as delivered unless the agent was woken for it, nor blamed on a wake or on age undeservedly. */
  lemma StepConsistent(s: State, step: Step)
    requires Consistent(s)
    ensures Consistent(Next(s, step))
  {
    hide Conserved, Linked, Truthful, Earned, Numbered, Next;
    StepConserved(s, step);
    StepSound(s, step);
    StepEarned(s, step);
    StepNumbered(s, step);
  }

  lemma {:induction false} EachAnswerStays(s: State, es: seq<Entry>)
    ensures s.answers <= AnsweredEach(s, es).answers && s.answers <= AttemptedEach(s, es).answers
    decreases |es|
  {
    if es != [] {
      EachAnswerStays(Answered(s, es[0].frame, Errored(Closed)), es[1..]);
      EachAnswerStays(Attempted(s, es[0].frame, es[0].msg, Some(es[0].enqueuedAt)), es[1..]);
    }
  }

  /** An answer once given stays the frame's answer. */
  lemma StepAnswersStay(s: State, step: Step)
    ensures s.answers <= Next(s, step).answers
  {
    hide Attempted, AttemptedEach, AnsweredEach, WaiterResumed, Fired;
    match step
    case Deliver(msg) => AttemptAnswerStays(s.(nextFrame := s.nextFrame + 1), s.nextFrame, msg);
    case WaiterResumes(frame) => WaiterAnswerStays(s, frame);
    case Drain => EachAnswerStays(s.(queue := []), s.queue);
    case FailQueue => EachAnswerStays(s.(queue := []), s.queue);
    case TimerFires(queueId, replacing) => FiredAnswerStays(s, queueId, replacing);
    case _ =>
  }

  lemma AttemptAnswerStays(s: State, frame: nat, msg: nat)
    ensures s.answers <= Attempted(s, frame, msg, None).answers
  {
  }

  lemma WaiterAnswerStays(s: State, frame: nat)
    ensures s.answers <= WaiterResumed(s, frame).answers
  {
  }

  lemma FiredAnswerStays(s: State, queueId: nat, replacing: bool)
    ensures s.answers <= Fired(s, queueId, replacing).answers
  {
    hide IndexOf;
  }

  /** So over every run: no frame is lost or settled twice, and no answer is withdrawn. */
  lemma {:induction false} RunConsistent(s: State, steps: seq<Step>)
    requires Consistent(s)
    ensures Consistent(Run(s, steps)) && s.answers <= Run(s, steps).answers
    decreases |steps|
  {
    hide Consistent, Next;
    if steps != [] {
      StepConsistent(s, steps[0]);
      StepAnswersStay(s, steps[0]);
      RunConsistent(Next(s, steps[0]), steps[1..]);
    }
  }

  // ----- At most one wake per session and message id ---------------------------------------------

  /** No key has been woken twice, and none can be by the attempts now waking. */
  ghost predicate Single(attempts: map<nat, Attempt>, wakes: seq<Key>) {
    && Distinct(wakes)
    && (forall a | a in attempts && attempts[a].phase.Waking? :: attempts[a].key !in wakes)
    && (forall a, b | a in attempts && b in attempts && attempts[a].phase.Waking? && attempts[b].phase.Waking? ::
          a != b ==> attempts[a].key != attempts[b].key)
  }

  predicate Unfinished(attempts: map<nat, Attempt>, a: nat, k: Key) {
    a in attempts && attempts[a].key == k && !attempts[a].phase.Finalised?
  }

  /** An unfinished attempt on `k` that the in-flight table does not hold. */
  ghost predicate Orphaned(inflight: map<Key, nat>, attempts: map<nat, Attempt>, k: Key) {
    exists a :: Unfinished(attempts, a, k) && !(k in inflight && inflight[k] == a)
  }

  /** Nothing keeps a duplicate of `k` from a second wake: it is not recorded as delivered, although it was
      woken or has an unfinished attempt that a duplicate would not find. */
  ghost predicate Exposed(delivered: set<Key>, inflight: map<Key, nat>, attempts: map<nat, Attempt>, wakes: seq<Key>, k: Key) {
    k !in delivered && (k in wakes || Orphaned(inflight, attempts, k))
  }

  ghost predicate IsExposed(s: State, k: Key) { Exposed(s.delivered, s.inflight, s.attempts, s.wakes, k) }

  ghost predicate IsSingle(s: State) { Single(s.attempts, s.wakes) }

  /** So far no key was woken twice, and no exposed key belongs to the current session. */
  ghost predicate Once(s: State) {
    IsSingle(s) && forall k | IsExposed(s, k) :: k.session != s.session
  }

  /** `t` exposes no key that `s` does not, and still wakes no key twice. */
  ghost predicate Shielded(s: State, t: State) {
    IsSingle(t) && forall k | IsExposed(t, k) :: IsExposed(s, k)
  }

  /** Attempting a key that is not exposed exposes nothing. */
  lemma AttemptedShielded(s: State, frame: nat, msg: nat, since: Option<nat>)
    requires IsSingle(s) && Sound(s) && !IsExposed(s, Key(s.session, msg))
    ensures Shielded(s, Attempted(s, frame, msg, since))
  {
    hide Truthful, Distinct;
    var key := Key(s.session, msg);
    if key !in s.delivered && key !in s.inflight {
      NotOrphaned(s, key);
      hide Exposed, Single;
      StartedShielded(s.delivered, s.inflight, s.attempts, s.wakes, s.nextAttempt, key);
    }
  }

  lemma NotOrphaned(s: State, k: Key)
    requires !IsExposed(s, k) && k !in s.delivered
    ensures k !in s.wakes && forall a | Unfinished(s.attempts, a, k) :: k in s.inflight && s.inflight[k] == a
  {
  }

  lemma StartedShielded(delivered: set<Key>, inflight: map<Key, nat>, attempts: map<nat, Attempt>, wakes: seq<Key>,
                        n: nat, key: Key)
    requires Single(attempts, wakes) && key !in wakes && n !in attempts
    requires forall a :: !Unfinished(attempts, a, key)
    ensures var later := attempts[n := Attempt(key, Waking)];
            && Single(later, wakes)
            && forall k :: Exposed(delivered, inflight[key := n], later, wakes, k) ==> Exposed(delivered, inflight, attempts, wakes, k)
  {
    hide Distinct;
    var later := attempts[n := Attempt(key, Waking)];
    assert forall a | a in attempts && attempts[a].phase.Waking? :: Unfinished(attempts, a, attempts[a].key);
    forall k | Exposed(delivered, inflight[key := n], later, wakes, k) ensures Exposed(delivered, inflight, attempts, wakes, k) {
      if k !in wakes {
        var a :| Unfinished(later, a, k) && !(k in inflight[key := n] && inflight[key := n][k] == a);
        assert a != n;
        assert Unfinished(attempts, a, k);
      }
    }
  }

  lemma {:induction false} AttemptedEachShielded(s: State, es: seq<Entry>)
    requires IsSingle(s) && Sound(s)
    requires forall i | 0 <= i < |es| :: !IsExposed(s, Key(s.session, es[i].msg))
    ensures Shielded(s, AttemptedEach(s, es))
    decreases |es|
  {
    hide IsSingle, IsExposed, Sound, Attempted;
    if es != [] {
      var t := Attempted(s, es[0].frame, es[0].msg, Some(es[0].enqueuedAt));
      AttemptedShielded(s, es[0].frame, es[0].msg, Some(es[0].enqueuedAt));
      AttemptedSound(s, es[0].frame, es[0].msg, Some(es[0].enqueuedAt));
      AttemptedFrames(s, es[0].frame, es[0].msg, Some(es[0].enqueuedAt));
      assert forall i | 0 <= i < |es| - 1 :: es[1..][i] == es[i + 1];
      AttemptedEachShielded(t, es[1..]);
    }
  }

  lemma WakeSettledShielded(s: State, a: nat, wake: Wake)
    requires IsSingle(s)
    ensures Shielded(s, WakeSettled(s, a, wake))
  {
    var t := WakeSettled(s, a, wake);
    if a in s.attempts && s.attempts[a].phase == Waking {
      var key := s.attempts[a].key;
      hide Distinct, WakeSettled;
      WakeSettledSingle(s.attempts, s.wakes, a, wake);
      WakeSettledIs(s, a, wake);
      forall k | IsExposed(t, k) ensures IsExposed(s, k) {
        assert forall b :: Unfinished(t.attempts, b, k) <==> Unfinished(s.attempts, b, k);
        assert k in t.wakes && k !in t.delivered ==> k in s.wakes;
      }
    }
  }

  lemma WakeSettledIs(s: State, a: nat, wake: Wake)
    requires a in s.attempts && s.attempts[a].phase == Waking
    ensures var t, key := WakeSettled(s, a, wake), s.attempts[a].key;
            && t.attempts == s.attempts[a := Attempt(key, Settled(wake))] && t.inflight == s.inflight
            && t.delivered == (if wake == Ok then s.delivered + {key} else s.delivered)
            && t.wakes == (if wake == Ok then s.wakes + [key] else s.wakes)
            && t.session == s.session && t.fenced == s.fenced && t.nextAttempt == s.nextAttempt
  {
  }

  lemma WakeSettledSingle(attempts: map<nat, Attempt>, wakes: seq<Key>, a: nat, wake: Wake)
    requires Single(attempts, wakes) && a in attempts && attempts[a].phase == Waking
    ensures var key := attempts[a].key;
            Single(attempts[a := Attempt(key, Settled(wake))], if wake == Ok then wakes + [key] else wakes)
  {
    var key := attempts[a].key;
    assert forall k | k in wakes + [key] :: k in wakes || k == key;
  }

  /** A `finally` exposes no key that was not exposed. */
  lemma AttemptFinalisedElsewhere(s: State, a: nat, k: Key)
    requires IsSingle(s) && !IsExposed(s, k)
    ensures IsSingle(AttemptFinalised(s, a)) && !IsExposed(AttemptFinalised(s, a), k)
  {
    hide Distinct;
    var t := AttemptFinalised(s, a);
    if a in s.attempts && s.attempts[a].phase.Settled? && k !in s.delivered {
      NotOrphaned(s, k);
      assert Unfinished(s.attempts, a, s.attempts[a].key);
      assert forall b :: Unfinished(t.attempts, b, k) <==> Unfinished(s.attempts, b, k) && b != a;
    }
  }

  ghost predicate Steady(steps: seq<Step>) {
    forall i | 0 <= i < |steps| :: !steps[i].Reset? && !steps[i].SwitchSession?
  }

  /** The keys a step attempts. */
  ghost predicate Tries(s: State, step: Step, k: Key) {
    k.session == s.session
    && ((step.Deliver? && !s.fenced && step.msg == k.msg)
        || (step.Drain? && exists i :: 0 <= i < |s.queue| && s.queue[i].msg == k.msg))
  }

  /** A step that stays in its session and attempts no exposed key wakes none twice and exposes none anew. */
  lemma StepShields(s: State, step: Step)
    requires IsSingle(s) && Sound(s) && !step.Reset? && !step.SwitchSession?
    requires forall k | Tries(s, step, k) :: !IsExposed(s, k)
    ensures Shielded(s, Next(s, step)) && Next(s, step).session == s.session
  {
    hide Attempted, WakeSettled, AttemptFinalised, WaiterResumed, AttemptedEach, AnsweredEach, Fired, Sound, Single, Exposed;
    match step
    case Deliver(msg) =>
      if !s.fenced {
        var t := s.(nextFrame := s.nextFrame + 1);
        AdmittedSound(s);
        assert Tries(s, step, Key(s.session, msg));
        AttemptedShielded(t, s.nextFrame, msg, None);
        AttemptedFrames(t, s.nextFrame, msg, None);
      }
    case WakeSettles(a, wake) =>
      WakeSettledShielded(s, a, wake);
      SettledElsewhere(s, a, wake);
    case AttemptFinalises(a) =>
      forall k | IsExposed(Next(s, step), k) ensures IsExposed(s, k) {
        if !IsExposed(s, k) { AttemptFinalisedElsewhere(s, a, k); }
      }
      FinalisedSingle(s, a);
    case WaiterResumes(frame) => WaiterResumedKeeps(s, frame);
    case Drain =>
      var t := s.(queue := []);
      AdmittedSound(s);
      assert forall i | 0 <= i < |s.queue| :: Tries(s, step, Key(s.session, s.queue[i].msg));
      AttemptedEachShielded(t, s.queue);
      AttemptedEachFrames(t, s.queue);
    case FailQueue => AnsweredEachKeeps(s.(queue := []), s.queue);
    case TimerFires(queueId, replacing) => FiredKeeps(s, queueId, replacing);
    case _ =>
  }

  lemma FinalisedSingle(s: State, a: nat)
    requires IsSingle(s)
    ensures IsSingle(AttemptFinalised(s, a)) && AttemptFinalised(s, a).session == s.session
  {
    hide Distinct;
  }

  lemma SettledElsewhere(s: State, a: nat, wake: Wake)
    ensures WakeSettled(s, a, wake).session == s.session
  {
  }

  lemma {:induction false} AnsweredEachKeeps(s: State, es: seq<Entry>)
    ensures AnsweredEach(s, es) == s.(answers := AnsweredEach(s, es).answers)
    decreases |es|
  {
    if es != [] { AnsweredEachKeeps(Answered(s, es[0].frame, Errored(Closed)), es[1..]); }
  }

  lemma AdmittedSound(s: State)
    requires Sound(s)
    ensures Sound(s.(nextFrame := s.nextFrame + 1)) && Sound(s.(queue := []))
  {
  }

  lemma WaiterResumedKeeps(s: State, frame: nat)
    ensures var t := WaiterResumed(s, frame);
            t == s.(waiting := t.waiting, queue := t.queue, nextQueueId := t.nextQueueId, answers := t.answers)
  {
    hide Enqueued;
    if frame in s.waiting {
      var w := s.waiting[frame];
      var t := s.(waiting := s.waiting - {frame});
      EnqueuedFrames(t, frame, w.msg, s.now);
      if w.since.Some? { EnqueuedFrames(t, frame, w.msg, w.since.value); }
    }
  }

  lemma FiredKeeps(s: State, queueId: nat, replacing: bool)
    ensures var t := Fired(s, queueId, replacing); t == s.(queue := t.queue, answers := t.answers)
  {
    hide IndexOf;
  }

  /** Under every interleaving of duplicates, attempts, failures and replays within a session, no key is
      woken twice and no key of the session becomes exposed. */
  lemma StepOnce(s: State, step: Step)
    requires Once(s) && Sound(s) && !step.Reset? && !step.SwitchSession?
    ensures Once(Next(s, step))
  {
    hide IsSingle, IsExposed, Sound, Next;
    StepShields(s, step);
  }

  lemma {:induction false} SteadyOnce(s: State, steps: seq<Step>)
    requires Once(s) && Sound(s) && Steady(steps)
    ensures Once(Run(s, steps)) && Sound(Run(s, steps))
    decreases |steps|
  {
    hide Once, Sound, Next;
    if steps != [] {
      StepOnce(s, steps[0]);
      StepSound(s, steps[0]);
      SteadyTail(steps);
      SteadyOnce(Next(s, steps[0]), steps[1..]);
    }
  }

  lemma SteadyTail(steps: seq<Step>)
    requires Steady(steps) && steps != []
    ensures Steady(steps[1..]) && !steps[0].Reset? && !steps[0].SwitchSession?
  {
    assert forall i | 0 <= i < |steps| - 1 :: steps[1..][i] == steps[i + 1];
  }

  lemma SteadyCons(step: Step, rest: seq<Step>)
    requires Steady(rest) && !step.Reset? && !step.SwitchSession?
    ensures Steady([step] + rest)
  {
    assert forall i | 1 <= i < |[step] + rest| :: ([step] + rest)[i] == rest[i - 1];
  }

  // ----- Where at-most-once ends ------------------------------------------------------------------

  lemma RunCons(s: State, step: Step, rest: seq<Step>)
    ensures Run(s, [step] + rest) == Run(Next(s, step), rest)
  {
    assert ([step] + rest)[1..] == rest;
  }

  /** A run that stays in the session and wakes some key twice. */
  ghost predicate Doubles(s: State, steps: seq<Step>) { Steady(steps) && !Distinct(Run(s, steps).wakes) }

  /** A doubling run after one step makes one before it. */
  lemma DoublesAfter(s: State, step: Step, rest: seq<Step>)
    requires !step.Reset? && !step.SwitchSession? && Doubles(Next(s, step), rest)
    ensures Doubles(s, [step] + rest)
  {
    hide Distinct;
    RunCons(s, step, rest);
    SteadyCons(step, rest);
  }

  lemma DoubledAlready(s: State)
    requires !Distinct(s.wakes)
    ensures Doubles(s, [])
  {
  }

  lemma Repeats(wakes: seq<Key>, k: Key)
    requires k in wakes
    ensures !Distinct(wakes + [k])
  {
    var i :| 0 <= i < |wakes| && wakes[i] == k;
    var w := wakes + [k];
    assert w[i] == w[|wakes|];
  }

  /** A waking attempt on a key already woken. */
  lemma WakesAgain(s: State, a: nat)
    requires a in s.attempts && s.attempts[a].phase == Waking && s.attempts[a].key in s.wakes
    ensures Doubles(s, [WakeSettles(a, Ok)] + [])
  {
    hide WakeSettled;
    WakeSettledIs(s, a, Ok);
    Repeats(s.wakes, s.attempts[a].key);
    DoubledAlready(Next(s, WakeSettles(a, Ok)));
    DoublesAfter(s, WakeSettles(a, Ok), []);
  }

  /** Two waking attempts on one key. */
  lemma WakesTwice(s: State, a: nat, b: nat) returns (steps: seq<Step>)
    requires a in s.attempts && b in s.attempts && a != b && s.attempts[a].key == s.attempts[b].key
    requires s.attempts[a].phase == Waking && s.attempts[b].phase == Waking
    ensures Doubles(s, steps)
  {
    hide WakeSettled;
    WakeSettledIs(s, a, Ok);
    var t := Next(s, WakeSettles(a, Ok));
    assert t.attempts[b] == s.attempts[b];
    assert s.attempts[a].key in s.wakes + [s.attempts[a].key];
    WakesAgain(t, b);
    DoublesAfter(s, WakeSettles(a, Ok), [WakeSettles(b, Ok)] + []);
    return [WakeSettles(a, Ok)] + ([WakeSettles(b, Ok)] + []);
  }

  /** A key of the current session that is neither delivered nor in flight starts a fresh attempt. */
  lemma DeliverStarts(s: State, msg: nat)
    requires !s.fenced && Key(s.session, msg) !in s.delivered && Key(s.session, msg) !in s.inflight
    ensures var t := Next(s, Deliver(msg));
            var key := Key(s.session, msg);
            && t.attempts == s.attempts[s.nextAttempt := Attempt(key, Waking)] && t.nextAttempt == s.nextAttempt + 1
            && t.inflight == s.inflight[key := s.nextAttempt] && t.wakes == s.wakes && t.delivered == s.delivered
            && t.session == s.session && t.fenced == s.fenced
  {
  }

  /** A key already woken, but neither delivered nor in flight: a duplicate wakes it again. */
  lemma WokenAgain(s: State, msg: nat) returns (steps: seq<Step>)
    requires !s.fenced && s.nextAttempt !in s.attempts
    requires var k := Key(s.session, msg); k in s.wakes && k !in s.delivered && k !in s.inflight
    ensures Doubles(s, steps)
  {
    hide Next, Doubles;
    DeliverStarts(s, msg);
    WakesAgain(Next(s, Deliver(msg)), s.nextAttempt);
    DoublesAfter(s, Deliver(msg), [WakeSettles(s.nextAttempt, Ok)] + []);
    return [Deliver(msg)] + ([WakeSettles(s.nextAttempt, Ok)] + []);
  }

  /** A waking attempt that the table has forgotten: a duplicate starts a second one beside it. */
  lemma WakingTwice(s: State, a: nat, msg: nat) returns (steps: seq<Step>)
    requires !s.fenced && s.nextAttempt !in s.attempts
    requires a in s.attempts && s.attempts[a] == Attempt(Key(s.session, msg), Waking)
    requires var k := Key(s.session, msg); k !in s.delivered && k !in s.inflight
    ensures Doubles(s, steps)
  {
    hide Next, Doubles;
    DeliverStarts(s, msg);
    var rest := WakesTwice(Next(s, Deliver(msg)), a, s.nextAttempt);
    DoublesAfter(s, Deliver(msg), rest);
    return [Deliver(msg)] + rest;
  }

  lemma FinallyForgets(s: State, a: nat)
    requires a in s.attempts && s.attempts[a].phase.Settled?
    ensures var t := Next(s, AttemptFinalises(a));
            && t.inflight == s.inflight - {s.attempts[a].key} && t.delivered == s.delivered
            && t.attempts == s.attempts[a := Attempt(s.attempts[a].key, Finalised(s.attempts[a].phase.wake))]
            && t.session == s.session && t.fenced == s.fenced && t.nextAttempt == s.nextAttempt && t.wakes == s.wakes
  {
  }

  /** A failed attempt that the table has forgotten: its `finally` removes its successor's entry. */
  lemma FinallyRemovesSuccessor(s: State, a: nat, msg: nat) returns (steps: seq<Step>)
    requires !s.fenced && s.nextAttempt !in s.attempts && s.nextAttempt + 1 !in s.attempts
    requires a in s.attempts && s.attempts[a].key == Key(s.session, msg) && s.attempts[a].phase.Settled?
    requires var k := Key(s.session, msg); k !in s.delivered && k !in s.inflight
    ensures Doubles(s, steps)
  {
    hide Next, Doubles;
    DeliverStarts(s, msg);
    var t := Next(s, Deliver(msg));
    FinallyForgets(t, a);
    var rest := WakingTwice(Next(t, AttemptFinalises(a)), s.nextAttempt, msg);
    DoublesAfter(t, AttemptFinalises(a), rest);
    DoublesAfter(s, Deliver(msg), [AttemptFinalises(a)] + rest);
    return [Deliver(msg)] + ([AttemptFinalises(a)] + rest);
  }

  /** An exposed key of the current session that is not in flight. */
  lemma ExposedDoublesFree(s: State, msg: nat) returns (steps: seq<Step>)
    requires Sound(s) && !s.fenced
    requires var k := Key(s.session, msg); IsExposed(s, k) && k !in s.inflight
    ensures Doubles(s, steps)
  {
    hide Doubles, Truthful;
    var k := Key(s.session, msg);
    assert s.nextAttempt !in s.attempts && s.nextAttempt + 1 !in s.attempts;
    if k in s.wakes {
      steps := WokenAgain(s, msg);
    } else {
      var a :| Unfinished(s.attempts, a, k);
      if s.attempts[a].phase.Waking? {
        steps := WakingTwice(s, a, msg);
      } else {
        steps := FinallyRemovesSuccessor(s, a, msg);
      }
    }
  }

  /** Any exposed key of the current session, on an unfenced state that has not doubled yet. */
  lemma ExposedDoubles(s: State, msg: nat) returns (steps: seq<Step>)
    requires Sound(s) && IsSingle(s) && !s.fenced && IsExposed(s, Key(s.session, msg))
    ensures Doubles(s, steps)
  {
    hide Doubles, Truthful, Distinct;
    var k := Key(s.session, msg);
    if k !in s.inflight {
      steps := ExposedDoublesFree(s, msg);
      return;
    }
    var b := s.inflight[k];
    if s.attempts[b].phase.Settled? {
      FinallyForgets(s, b);
      StepSound(s, AttemptFinalises(b));
      ExposedStays(s, b, k);
      steps := ExposedDoublesFree(Next(s, AttemptFinalises(b)), msg);
      DoublesAfter(s, AttemptFinalises(b), steps);
      steps := [AttemptFinalises(b)] + steps;
    } else {
      var a :| Unfinished(s.attempts, a, k) && s.inflight[k] != a;
      FinallyForgets(s, a);
      assert s.nextAttempt !in s.attempts;
      steps := WakingTwice(Next(s, AttemptFinalises(a)), b, msg);
      DoublesAfter(s, AttemptFinalises(a), steps);
      steps := [AttemptFinalises(a)] + steps;
    }
  }

  /** The holder's `finally` leaves the key exposed. */
  lemma ExposedStays(s: State, b: nat, k: Key)
    requires IsExposed(s, k) && k in s.inflight && s.inflight[k] == b
    requires b in s.attempts && s.attempts[b].key == k && s.attempts[b].phase.Settled?
    ensures IsExposed(Next(s, AttemptFinalises(b)), k) && k !in Next(s, AttemptFinalises(b)).inflight
  {
    hide Next;
    FinallyForgets(s, b);
    var t := Next(s, AttemptFinalises(b));
    if k !in s.wakes {
      var a :| Unfinished(s.attempts, a, k) && s.inflight[k] != a;
      assert Unfinished(t.attempts, a, k);
    }
  }

  /** In any state, the agent will be woken at most once per key for the rest of the session if and only if no
      key was woken twice, no waking attempt repeats one, and no exposed key belongs to the session. */
  lemma SessionExact(s: State)
    requires Sound(s)
    ensures Once(s) <==> forall steps | Steady(steps) :: Distinct(Run(s, steps).wakes)
  {
    if Once(s) {
      forall steps | Steady(steps) ensures Distinct(Run(s, steps).wakes) { SteadyOnce(s, steps); }
    } else {
      var steps := NotOnceDoubles(s);
    }
  }

  lemma NotOnceDoubles(s: State) returns (steps: seq<Step>)
    requires Sound(s) && !Once(s)
    ensures Doubles(s, steps)
  {
    hide Doubles, Exposed, Sound;
    if !IsSingle(s) {
      steps := NotSingleDoubles(s);
    } else {
      hide Single;
      var k :| IsExposed(s, k) && k.session == s.session;
      var t := Next(s, Unfence);
      UnfencedSound(s);
      steps := ExposedDoubles(t, k.msg);
      DoublesAfter(s, Unfence, steps);
      steps := [Unfence] + steps;
    }
  }

  lemma UnfencedSound(s: State)
    requires Sound(s)
    ensures Sound(Next(s, Unfence))
  {
  }

  lemma NotSingleDoubles(s: State) returns (steps: seq<Step>)
    requires !IsSingle(s)
    ensures Doubles(s, steps)
  {
    hide Doubles;
    if !Distinct(s.wakes) {
      DoubledAlready(s);
      return [];
    }
    if a :| a in s.attempts && s.attempts[a].phase.Waking? && s.attempts[a].key in s.wakes {
      WakesAgain(s, a);
      return [WakeSettles(a, Ok)] + [];
    }
    var a, b :| a in s.attempts && b in s.attempts && a != b && s.attempts[a].phase.Waking? && s.attempts[b].phase.Waking?
                && s.attempts[a].key == s.attempts[b].key;
    steps := WakesTwice(s, a, b);
  }

  /** A reset keeps at-most-once for the rest of the session exactly when the session it happens in has
      nothing woken and nothing unfinished. */
  ghost predicate ResetSafe(s: State) {
    forall k: Key | k.session == s.session :: k !in s.wakes && forall a :: !Unfinished(s.attempts, a, k)
  }

  lemma ResetExact(s: State)
    requires Sound(s) && IsSingle(s)
    ensures ResetSafe(s) <==> forall steps | Steady(steps) :: Distinct(Run(Next(s, Reset), steps).wakes)
  {
    hide Distinct, Truthful;
    var t := Next(s, Reset);
    StepSound(s, Reset);
    SessionExact(t);
    hide Run, Sound, Single;
    forall k ensures IsExposed(t, k) <==> k in s.wakes || exists a :: Unfinished(s.attempts, a, k) {}
  }

  /** Moving to another session keeps it exactly when that session has no exposed key. */
  ghost predicate SwitchSafe(s: State, session: nat) {
    forall k | IsExposed(s, k) :: k.session != session
  }

  lemma SwitchExact(s: State, session: nat)
    requires Sound(s) && IsSingle(s)
    ensures SwitchSafe(s, session)
            <==> forall steps | Steady(steps) :: Distinct(Run(Next(s, SwitchSession(session)), steps).wakes)
  {
    hide Distinct, Truthful;
    StepSound(s, SwitchSession(session));
    SessionExact(Next(s, SwitchSession(session)));
    hide Run, Sound, Single, Exposed;
  }

  ghost predicate Safe(s: State, step: Step) {
    match step
    case Reset => ResetSafe(s)
    case SwitchSession(session) => SwitchSafe(s, session)
    case _ => true
  }

  lemma SafeStepOnce(s: State, step: Step)
    requires Once(s) && Sound(s)
    ensures Safe(s, step) ==> Once(Next(s, step))
    ensures !Safe(s, step) ==> !Once(Next(s, step))
  {
    hide Distinct, Sound, Single;
    match step
    case Reset =>
      var t := Next(s, Reset);
      forall k ensures IsExposed(t, k) <==> k in s.wakes || exists a :: Unfinished(s.attempts, a, k) {}
    case SwitchSession(session) => hide Exposed;
    case _ => StepOnce(s, step);
  }

  ghost predicate SafeRun(s: State, steps: seq<Step>)
    decreases |steps|
  {
    steps != [] ==> Safe(s, steps[0]) && SafeRun(Next(s, steps[0]), steps[1..])
  }

  /** Over any run whose resets and session switches are safe, the agent is woken at most once per session
      and message id. */
  lemma {:induction false} AtMostOneWake(s: State, steps: seq<Step>)
    requires Once(s) && Sound(s) && SafeRun(s, steps)
    ensures Once(Run(s, steps)) && Sound(Run(s, steps)) && Distinct(Run(s, steps).wakes)
    decreases |steps|
  {
    hide Sound, Next, Safe, IsExposed;
    if steps != [] {
      SafeStepOnce(s, steps[0]);
      StepSound(s, steps[0]);
      AtMostOneWake(Next(s, steps[0]), steps[1..]);
    }
  }

  /** And only then: after the first reset or switch that is not safe, some run wakes a key twice. */
  lemma {:induction false} UnsafeRunDoubles(s: State, steps: seq<Step>) returns (n: nat, more: seq<Step>)
    requires Once(s) && Sound(s) && !SafeRun(s, steps)
    ensures n < |steps| && Doubles(Run(s, steps[..n + 1]), more)
    decreases |steps|
  {
    hide Sound, Next, Safe, IsExposed, Doubles, Once;
    assert steps == [steps[0]] + steps[1..];
    SafeStepOnce(s, steps[0]);
    StepSound(s, steps[0]);
    var t := Next(s, steps[0]);
    if !Safe(s, steps[0]) {
      more := NotOnceDoubles(t);
      n := 0;
      assert steps[..1] == [steps[0]] + [];
      RunCons(s, steps[0], []);
    } else {
      var m;
      m, more := UnsafeRunDoubles(t, steps[1..]);
      n := m + 1;
      assert steps[..n + 1] == [steps[0]] + steps[1..][..m + 1];
      RunCons(s, steps[0], steps[1..][..m + 1]);
    }
  }

  /** From the start: a message is delivered, the session is reset without moving on, and a duplicate wakes the
      agent again. */
  lemma DuplicateWakesTwice(session: nat, now: nat, msg: nat)
    ensures var k := Key(session, msg);
            var run := [Deliver(msg)] + ([WakeSettles(0, Ok)] + ([Reset] + ([Deliver(msg)] + ([WakeSettles(1, Ok)] + []))));
            Run(Initial(session, now), run).wakes == [k, k]
  {
    var a := Initial(session, now);
    var b := Next(a, Deliver(msg));
    var c := Next(b, WakeSettles(0, Ok));
    var d := Next(c, Reset);
    var e := Next(d, Deliver(msg));
    var f := Next(e, WakeSettles(1, Ok));
    DeliverStarts(a, msg);
    WakeSettledIs(b, 0, Ok);
    assert d.wakes == [Key(session, msg)] && d.delivered == {} && d.inflight == map[] && d.nextAttempt == 1;
    DeliverStarts(d, msg);
    WakeSettledIs(e, 1, Ok);
    hide Next, Run;
    RunCons(a, Deliver(msg), [WakeSettles(0, Ok)] + ([Reset] + ([Deliver(msg)] + ([WakeSettles(1, Ok)] + []))));
    RunCons(b, WakeSettles(0, Ok), [Reset] + ([Deliver(msg)] + ([WakeSettles(1, Ok)] + [])));
    RunCons(c, Reset, [Deliver(msg)] + ([WakeSettles(1, Ok)] + []));
    RunCons(d, Deliver(msg), [WakeSettles(1, Ok)] + []);
    RunCons(e, WakeSettles(1, Ok), []);
    NothingRun(f);
  }

  lemma NothingRun(s: State)
    ensures Run(s, []) == s
  {
  }

  // ----- Behind a fence that is held ---------------------------------------------------------------

  /** A waiting frame that may come back for another attempt. */
  predicate MayReturn(w: Waiter, attempts: map<nat, Attempt>, now: nat) {
    && w.attempt in attempts
    && (attempts[w.attempt].phase.Waking? || attempts[w.attempt].phase.wake == Recoverable)
    && (w.since.Some? ==> now - w.since.value < TTL)
  }

  ghost predicate InQueue(q: seq<Entry>, msg: nat) { exists i :: 0 <= i < |q| && q[i].msg == msg }

  ghost predicate MayReturnFor(waiting: map<nat, Waiter>, attempts: map<nat, Attempt>, now: nat, msg: nat) {
    exists f :: f in waiting && waiting[f].msg == msg && MayReturn(waiting[f], attempts, now)
  }

  /** Some frame already admitted can be attempted for this message id. */
  ghost predicate Retriable(s: State, msg: nat) {
    InQueue(s.queue, msg) || MayReturnFor(s.waiting, s.attempts, s.now, msg)
  }

  /** A run behind a fence that is not lifted. */
  ghost predicate Held(steps: seq<Step>) {
    Steady(steps) && forall i | 0 <= i < |steps| :: !steps[i].Unfence?
  }

  lemma AttemptedRetries(s: State, frame: nat, msg: nat, since: Option<nat>, m: nat)
    requires Sound(s) && m != msg && Retriable(Attempted(s, frame, msg, since), m)
    ensures Retriable(s, m)
  {
    hide Truthful;
    var t := Attempted(s, frame, msg, since);
    if !InQueue(s.queue, m) {
      var f :| f in t.waiting && t.waiting[f].msg == m && MayReturn(t.waiting[f], t.attempts, t.now);
      assert f in s.waiting && s.waiting[f] == t.waiting[f];
    }
  }

  lemma {:induction false} AttemptedEachRetries(s: State, es: seq<Entry>, m: nat)
    requires Sound(s) && Retriable(AttemptedEach(s, es), m)
    ensures Retriable(s, m) || InQueue(es, m)
    decreases |es|
  {
    hide Sound, Retriable, Attempted;
    if es != [] {
      var t := Attempted(s, es[0].frame, es[0].msg, Some(es[0].enqueuedAt));
      AttemptedSound(s, es[0].frame, es[0].msg, Some(es[0].enqueuedAt));
      AttemptedEachRetries(t, es[1..], m);
      if es[0].msg != m {
        if Retriable(t, m) {
          AttemptedRetries(s, es[0].frame, es[0].msg, Some(es[0].enqueuedAt), m);
        } else {
          var i :| 0 <= i < |es| - 1 && es[1..][i].msg == m;
          assert es[i + 1].msg == m;
        }
      }
    }
  }

  lemma DrainRetries(s: State, m: nat)
    requires Sound(s) && Retriable(Next(s, Drain), m)
    ensures Retriable(s, m)
  {
    hide AttemptedEach;
    AdmittedSound(s);
    AttemptedEachRetries(s.(queue := []), s.queue, m);
  }

  lemma EnqueuedRetries(s: State, frame: nat, msg: nat, at: nat, m: nat)
    requires Retriable(Enqueued(s, frame, msg, at), m)
    ensures Retriable(s, m) || m == msg
  {
    var t := Enqueued(s, frame, msg, at);
    hide MayReturn;
    if m != msg && InQueue(t.queue, m) {
      var i :| 0 <= i < |t.queue| && t.queue[i].msg == m;
      assert i < |t.queue| - 1;
      var j := if |s.queue| >= QUEUE_MAX then i + 1 else i;
      assert s.queue[j].msg == m;
    }
  }

  lemma WaiterRetries(s: State, frame: nat, m: nat)
    requires Retriable(WaiterResumed(s, frame), m)
    ensures Retriable(s, m)
  {
    hide Enqueued;
    if frame in s.waiting && s.waiting[frame].attempt in s.attempts && s.attempts[s.waiting[frame].attempt].phase.Finalised? {
      var w, t := s.waiting[frame], s.(waiting := s.waiting - {frame});
      assert Retriable(t, m) ==> Retriable(s, m);
      if s.attempts[w.attempt].phase.wake == Recoverable && (w.since.Some? ==> s.now - w.since.value < TTL) {
        EnqueuedRetries(t, frame, w.msg, if w.since.Some? then w.since.value else s.now, m);
        assert MayReturn(s.waiting[frame], s.attempts, s.now);
      }
    }
  }

  lemma FiredRetries(s: State, queueId: nat, replacing: bool, m: nat)
    requires Retriable(Fired(s, queueId, replacing), m)
    ensures Retriable(s, m)
  {
    hide IndexOf, MayReturn;
    var t := Fired(s, queueId, replacing);
    if InQueue(t.queue, m) {
      var i :| 0 <= i < |t.queue| && t.queue[i].msg == m;
      var k := IndexOf(s.queue, queueId);
      assert s.queue[if |t.queue| < |s.queue| && i >= k then i + 1 else i].msg == m;
    }
  }

  lemma SettleRetries(s: State, step: Step, m: nat)
    requires (step.WakeSettles? || step.AttemptFinalises? || step.Tick?) && Retriable(Next(s, step), m)
    ensures Retriable(s, m)
  {
    var t := Next(s, step);
    if MayReturnFor(t.waiting, t.attempts, t.now, m) {
      var f :| f in t.waiting && t.waiting[f].msg == m && MayReturn(t.waiting[f], t.attempts, t.now);
      assert MayReturn(s.waiting[f], s.attempts, s.now);
    }
  }

  /** Behind a held fence no message id becomes retriable that was not. */
  lemma HeldRetries(s: State, step: Step, m: nat)
    requires Sound(s) && s.fenced && Held([step]) && Retriable(Next(s, step), m)
    ensures Retriable(s, m) && Next(s, step).fenced
  {
    assert [step][0] == step;
    hide WakeSettled, AttemptFinalised, WaiterResumed, Fired, AttemptedEach, AnsweredEach, Retriable, Sound;
    match step
    case WaiterResumes(frame) =>
      WaiterRetries(s, frame, m);
      WaiterResumedKeeps(s, frame);
    case Drain =>
      DrainRetries(s, m);
      AttemptedEachFrames(s.(queue := []), s.queue);
    case TimerFires(queueId, replacing) =>
      FiredRetries(s, queueId, replacing, m);
      FiredKeeps(s, queueId, replacing);
    case FailQueue =>
      AnsweredEachKeeps(s.(queue := []), s.queue);
      FailRetries(s, m);
    case WakeSettles(a, wake) => SettleRetries(s, step, m); StaysFenced(s, step);
    case AttemptFinalises(a) => SettleRetries(s, step, m); StaysFenced(s, step);
    case Tick(to) => SettleRetries(s, step, m);
    case _ =>
  }

  lemma StaysFenced(s: State, step: Step)
    requires step.WakeSettles? || step.AttemptFinalises?
    ensures Next(s, step).fenced == s.fenced
  {
  }

  lemma FailRetries(s: State, m: nat)
    requires Retriable(Next(s, FailQueue), m)
    ensures Retriable(s, m)
  {
    hide AnsweredEach, MayReturn;
    AnsweredEachKeeps(s.(queue := []), s.queue);
  }

  /** No frame already admitted carries an exposed key of the session. */
  ghost predicate NoneRetriable(s: State) {
    forall k | IsExposed(s, k) && k.session == s.session :: !Retriable(s, k.msg)
  }

  lemma HeldStep(s: State, step: Step)
    requires IsSingle(s) && Sound(s) && s.fenced && NoneRetriable(s) && Held([step])
    ensures var t := Next(s, step); IsSingle(t) && Sound(t) && t.fenced && NoneRetriable(t)
  {
    assert [step][0] == step;
    hide IsSingle, IsExposed, Sound, Next, Retriable;
    forall k | Tries(s, step, k) ensures !IsExposed(s, k) { TriesRetriable(s, step, k); }
    StepShields(s, step);
    StepSound(s, step);
    var t := Next(s, step);
    forall k | IsExposed(t, k) && k.session == t.session ensures !Retriable(t, k.msg) {
      if Retriable(t, k.msg) { HeldRetries(s, step, k.msg); }
    }
    HeldFenced(s, step);
  }

  lemma TriesRetriable(s: State, step: Step, k: Key)
    requires s.fenced && Tries(s, step, k)
    ensures Retriable(s, k.msg) && k.session == s.session
  {
  }

  lemma HeldFenced(s: State, step: Step)
    requires s.fenced && !step.Unfence?
    ensures Next(s, step).fenced
  {
    hide WaiterResumed, Fired, AttemptedEach, AnsweredEach;
    match step
    case WaiterResumes(frame) => WaiterResumedKeeps(s, frame);
    case Drain => AttemptedEachFrames(s.(queue := []), s.queue);
    case TimerFires(queueId, replacing) => FiredKeeps(s, queueId, replacing);
    case FailQueue => AnsweredEachKeeps(s.(queue := []), s.queue);
    case _ =>
  }

  /** While the fence is held, an exposed key does no harm unless some frame already admitted carries it. */
  lemma {:induction false} HeldFenceKeeps(s: State, steps: seq<Step>)
    requires IsSingle(s) && Sound(s) && s.fenced && NoneRetriable(s) && Held(steps)
    ensures Distinct(Run(s, steps).wakes)
    decreases |steps|
  {
    hide Sound, NoneRetriable, Next;
    if steps != [] {
      HeldTail(steps);
      HeldStep(s, steps[0]);
      HeldFenceKeeps(Next(s, steps[0]), steps[1..]);
    }
  }

  lemma HeldTail(steps: seq<Step>)
    requires Held(steps) && steps != []
    ensures Held([steps[0]]) && Held(steps[1..])
  {
    assert forall i | 0 <= i < |steps| - 1 :: steps[1..][i] == steps[i + 1];
  }

  /** If the in-flight table holds `k`, it holds a waking attempt on it. */
  ghost predicate HolderWakes(s: State, k: Key) {
    k in s.inflight ==> s.inflight[k] in s.attempts && s.attempts[s.inflight[k]] == Attempt(k, Waking)
  }

  lemma {:induction false} AttemptedEachStarts(s: State, es: seq<Entry>, m: nat)
    requires Sound(s) && HolderWakes(s, Key(s.session, m)) && Key(s.session, m) !in s.delivered
    requires InQueue(es, m) || Key(s.session, m) in s.inflight
    ensures var t, k := AttemptedEach(s, es), Key(s.session, m); HolderWakes(t, k) && k in t.inflight
    decreases |es|
  {
    hide Sound, Attempted, HolderWakes;
    if es != [] {
      var t := Attempted(s, es[0].frame, es[0].msg, Some(es[0].enqueuedAt));
      AttemptedSound(s, es[0].frame, es[0].msg, Some(es[0].enqueuedAt));
      AttemptedFrames(s, es[0].frame, es[0].msg, Some(es[0].enqueuedAt));
      AttemptedHolds(s, es[0].frame, es[0].msg, Some(es[0].enqueuedAt), Key(s.session, m));
      if es[0].msg != m && InQueue(es, m) {
        var i :| 0 <= i < |es| && es[i].msg == m;
        assert es[1..][i - 1].msg == m;
      }
      AttemptedEachStarts(t, es[1..], m);
    }
  }

  lemma AttemptedHolds(s: State, frame: nat, msg: nat, since: Option<nat>, k: Key)
    requires Sound(s) && HolderWakes(s, k)
    ensures var t := Attempted(s, frame, msg, since);
            && HolderWakes(t, k) && (k in s.inflight ==> k in t.inflight)
            && (k == Key(s.session, msg) && k !in s.delivered ==> k in t.inflight)
  {
    hide Truthful;
  }

  /** A queued frame with a woken key that is neither recorded nor in flight: a drain wakes the key again. */
  lemma QueuedDoubles(s: State, msg: nat) returns (steps: seq<Step>)
    requires Sound(s) && InQueue(s.queue, msg)
    requires var k := Key(s.session, msg); k in s.wakes && k !in s.delivered && k !in s.inflight
    ensures Held(steps) && !Distinct(Run(s, steps).wakes)
  {
    hide AttemptedEach, Sound, Doubles;
    var q := s.(queue := []);
    AdmittedSound(s);
    AttemptedEachStarts(q, s.queue, msg);
    AttemptedEachFrames(q, s.queue);
    var t := Next(s, Drain);
    var a := t.inflight[Key(s.session, msg)];
    WakesAgain(t, a);
    DoublesAfter(s, Drain, [WakeSettles(a, Ok)] + []);
    steps := [Drain] + ([WakeSettles(a, Ok)] + []);
    DoublesRun(s, steps);
  }

  lemma DoublesRun(s: State, steps: seq<Step>)
    requires Doubles(s, steps)
    ensures Steady(steps) && !Distinct(Run(s, steps).wakes)
  {
  }

  /** No attempt on a key of the session has been forgotten while it still runs. */
  ghost predicate NoneForgotten(s: State) {
    forall k: Key | k.session == s.session :: !Orphaned(s.inflight, s.attempts, k)
  }

  /** While a fence is held and no attempt of the session has been forgotten, the agent is woken at most once
      per key if and only if no frame already admitted can be attempted for an exposed key of the session. */
  lemma HeldFenceExact(s: State)
    requires Sound(s) && IsSingle(s) && s.fenced && NoneForgotten(s)
    ensures NoneRetriable(s) <==> forall steps | Held(steps) :: Distinct(Run(s, steps).wakes)
  {
    hide Single, Sound;
    if NoneRetriable(s) {
      forall steps | Held(steps) ensures Distinct(Run(s, steps).wakes) { HeldFenceKeeps(s, steps); }
    } else {
      var steps := RetriableDoubles(s);
    }
  }

  lemma RetriableDoubles(s: State) returns (steps: seq<Step>)
    requires Sound(s) && IsSingle(s) && NoneForgotten(s) && !NoneRetriable(s)
    ensures Held(steps) && !Distinct(Run(s, steps).wakes)
  {
    hide Held, Distinct, Run, Truthful, Retriable;
    var k :| IsExposed(s, k) && k.session == s.session && Retriable(s, k.msg);
    if k in s.inflight {
      var b := s.inflight[k];
      FinallyForgets(s, b);
      StepSound(s, AttemptFinalises(b));
      FinallyRetries(s, b, k.msg);
      steps := WokenRetriableDoubles(Next(s, AttemptFinalises(b)), k);
      HeldCons(s, AttemptFinalises(b), steps);
      steps := [AttemptFinalises(b)] + steps;
    } else {
      steps := WokenRetriableDoubles(s, k);
    }
  }

  /** A `finally` takes no frame's return away. */
  lemma FinallyRetries(s: State, b: nat, m: nat)
    requires b in s.attempts && s.attempts[b].phase.Settled? && Retriable(s, m)
    ensures Retriable(Next(s, AttemptFinalises(b)), m)
    ensures IsSingle(s) ==> IsSingle(Next(s, AttemptFinalises(b)))
  {
    hide Distinct;
    var t := Next(s, AttemptFinalises(b));
    if !InQueue(s.queue, m) {
      var f :| f in s.waiting && s.waiting[f].msg == m && MayReturn(s.waiting[f], s.attempts, s.now);
      assert MayReturn(t.waiting[f], t.attempts, t.now);
    }
  }

  lemma WokenRetriableDoubles(s: State, k: Key) returns (steps: seq<Step>)
    requires Sound(s) && IsSingle(s) && k.session == s.session && Retriable(s, k.msg)
    requires k in s.wakes && k !in s.delivered && k !in s.inflight
    ensures Held(steps) && !Distinct(Run(s, steps).wakes)
  {
    hide Held, Distinct, Run, Sound, Next;
    if InQueue(s.queue, k.msg) {
      steps := QueuedDoubles(s, k.msg);
      return;
    }
    var f :| f in s.waiting && s.waiting[f].msg == k.msg && MayReturn(s.waiting[f], s.attempts, s.now);
    var a := s.waiting[f].attempt;
    if s.attempts[a].phase.Waking? {
      var t := Next(s, WakeSettles(a, Recoverable));
      SettledRecoverable(s, a);
      StepSound(s, WakeSettles(a, Recoverable));
      steps := SettledFrameDoubles(t, k, f);
      HeldCons(s, WakeSettles(a, Recoverable), steps);
      steps := [WakeSettles(a, Recoverable)] + steps;
    } else {
      steps := SettledFrameDoubles(s, k, f);
    }
  }

  lemma SettledRecoverable(s: State, a: nat)
    requires a in s.attempts && s.attempts[a].phase.Waking?
    ensures var t := Next(s, WakeSettles(a, Recoverable));
            && t == s.(attempts := s.attempts[a := Attempt(s.attempts[a].key, Settled(Recoverable))])
  {
  }

  /** The frame's attempt has settled and lets it return. */
  lemma SettledFrameDoubles(s: State, k: Key, f: nat) returns (steps: seq<Step>)
    requires Sound(s) && k.session == s.session && k in s.wakes && k !in s.delivered && k !in s.inflight
    requires f in s.waiting && s.waiting[f].msg == k.msg && MayReturn(s.waiting[f], s.attempts, s.now)
    requires !s.attempts[s.waiting[f].attempt].phase.Waking?
    ensures Held(steps) && !Distinct(Run(s, steps).wakes)
  {
    hide Held, Distinct, Run, Sound;
    var a := s.waiting[f].attempt;
    if s.attempts[a].phase.Settled? {
      var t := Next(s, AttemptFinalises(a));
      FinallyForgets(s, a);
      StepSound(s, AttemptFinalises(a));
      steps := ReturningDoubles(t, k, f);
      HeldCons(s, AttemptFinalises(a), steps);
      steps := [AttemptFinalises(a)] + steps;
    } else {
      steps := ReturningDoubles(s, k, f);
    }
  }

  lemma ReturningDoubles(s: State, k: Key, f: nat) returns (steps: seq<Step>)
    requires Sound(s) && k.session == s.session && k in s.wakes && k !in s.delivered && k !in s.inflight
    requires f in s.waiting && s.waiting[f].msg == k.msg && MayReturn(s.waiting[f], s.attempts, s.now)
    requires s.attempts[s.waiting[f].attempt].phase.Finalised?
    ensures Held(steps) && !Distinct(Run(s, steps).wakes)
  {
    hide Held, Distinct, Run, Sound, Next;
    StepSound(s, WaiterResumes(f));
    ReturnedQueues(s, f);
    steps := QueuedDoubles(Next(s, WaiterResumes(f)), k.msg);
    HeldCons(s, WaiterResumes(f), steps);
    steps := [WaiterResumes(f)] + steps;
  }

  lemma ReturnedQueues(s: State, f: nat)
    requires f in s.waiting && MayReturn(s.waiting[f], s.attempts, s.now)
    requires s.attempts[s.waiting[f].attempt].phase.Finalised?
    ensures var t := Next(s, WaiterResumes(f));
            && InQueue(t.queue, s.waiting[f].msg) && t.inflight == s.inflight && t.wakes == s.wakes
            && t.delivered == s.delivered && t.session == s.session
  {
    var t := Next(s, WaiterResumes(f));
    assert t.queue[|t.queue| - 1].msg == s.waiting[f].msg;
  }

  lemma HeldCons(s: State, step: Step, rest: seq<Step>)
    requires Held(rest) && !step.Reset? && !step.SwitchSession? && !step.Unfence?
    ensures Held([step] + rest) && Run(s, [step] + rest) == Run(Next(s, step), rest)
  {
    hide Run;
    RunCons(s, step, rest);
    SteadyCons(step, rest);
    assert forall i | 1 <= i < |[step] + rest| :: ([step] + rest)[i] == rest[i - 1];
  }

  // ----- How long a frame may wait -------------------------------------------------------------------

  /** Each queued frame's timer is due by the absolute deadline plus one time to live, is not overdue, and
      every renewal used up at least one time to live. */
  ghost predicate Timely(q: seq<Entry>, now: nat) {
    forall i | 0 <= i < |q| ::
      && q[i].enqueuedAt <= now <= q[i].dueAt < q[i].enqueuedAt + DEADLINE + TTL
      && q[i].enqueuedAt + TTL * (q[i].renewals + 1) <= q[i].dueAt
  }

  /** Frames being replayed were enqueued in the past. */
  ghost predicate Replayed(waiting: map<nat, Waiter>, now: nat) {
    forall f | f in waiting && waiting[f].since.Some? :: waiting[f].since.value <= now
  }

  ghost predicate Fresh(s: State) { Timely(s.queue, s.now) && Replayed(s.waiting, s.now) }

  /** A punctual clock does not pass a due timer. */
  ghost predicate Punctual(s: State, step: Step) {
    step.Tick? ==> forall i | 0 <= i < |s.queue| :: step.to <= s.queue[i].dueAt
  }

  /** A queued frame is younger than the absolute deadline plus one time to live, and was renewed fewer than
      DEADLINE / TTL times, so renewal ends. */
  lemma WaitIsBounded(s: State, i: nat)
    requires Fresh(s) && i < |s.queue|
    ensures s.now - s.queue[i].enqueuedAt < DEADLINE + TTL
    ensures s.queue[i].renewals < DEADLINE / TTL
  {
    assert TTL * (s.queue[i].renewals + 1) < DEADLINE + TTL;
  }

  lemma EnqueuedFresh(s: State, frame: nat, msg: nat, at: nat)
    requires Fresh(s) && at <= s.now < at + TTL
    ensures Fresh(Enqueued(s, frame, msg, at))
  {
    hide Replayed;
  }

  lemma {:induction false} AttemptedEachFresh(s: State, es: seq<Entry>)
    requires Replayed(s.waiting, s.now) && forall i | 0 <= i < |es| :: es[i].enqueuedAt <= s.now
    ensures Replayed(AttemptedEach(s, es).waiting, s.now)
    decreases |es|
  {
    if es != [] { AttemptedEachFresh(Attempted(s, es[0].frame, es[0].msg, Some(es[0].enqueuedAt)), es[1..]); }
  }

  lemma FiredFresh(s: State, queueId: nat, replacing: bool)
    requires Fresh(s)
    ensures Fresh(Fired(s, queueId, replacing))
  {
    hide Replayed;
  }

  lemma WaiterResumedFresh(s: State, frame: nat)
    requires Fresh(s)
    ensures Fresh(WaiterResumed(s, frame))
  {
    hide Enqueued, Timely;
    if frame in s.waiting {
      var w := s.waiting[frame];
      var t := s.(waiting := s.waiting - {frame});
      EnqueuedFresh(t, frame, w.msg, s.now);
      if w.since.Some? && s.now < w.since.value + TTL { EnqueuedFresh(t, frame, w.msg, w.since.value); }
    }
  }

  lemma StepFresh(s: State, step: Step)
    requires Fresh(s) && Punctual(s, step)
    ensures Fresh(Next(s, step))
  {
    hide WaiterResumed, Fired, AttemptedEach, AnsweredEach;
    match step
    case WaiterResumes(frame) => WaiterResumedFresh(s, frame);
    case TimerFires(queueId, replacing) => FiredFresh(s, queueId, replacing);
    case Drain =>
      AttemptedEachFresh(s.(queue := []), s.queue);
      AttemptedEachFrames(s.(queue := []), s.queue);
    case FailQueue => AnsweredEachKeeps(s.(queue := []), s.queue);
    case _ =>
  }

  ghost predicate PunctualRun(s: State, steps: seq<Step>)
    decreases |steps|
  {
    steps != [] ==> Punctual(s, steps[0]) && PunctualRun(Next(s, steps[0]), steps[1..])
  }

  lemma {:induction false} RunFresh(s: State, steps: seq<Step>)
    requires Fresh(s) && PunctualRun(s, steps)
    ensures Fresh(Run(s, steps))
    decreases |steps|
  {
    hide Fresh, Next, Punctual;
    if steps != [] {
      StepFresh(s, steps[0]);
      RunFresh(Next(s, steps[0]), steps[1..]);
    }
  }

  lemma InitialSafe(session: nat, now: nat)
    ensures Once(Initial(session, now)) && Sound(Initial(session, now)) && Fresh(Initial(session, now))
  {
  }

  // ----- The delivery coordinator ------------------------------------------------------------------

  class UserDelivery {
    var state: State

    constructor (session: nat, now: nat)
      ensures state == Initial(session, now) && Consistent(state) && Once(state) && Sound(state) && Fresh(state)
    {
      hide Consistent, Once, Sound, Fresh;
      InitialConsistent(session, now);
      InitialSafe(session, now);
      state := Initial(session, now);
    }

    /** `_deliverUserMessage`, up to its first await; a fenced frame is turned away before admission. */
    method DeliverUserMessage(msg: nat) returns (admitted: bool)
      requires Consistent(state)
      modifies this
      ensures state == Next(old(state), Deliver(msg)) && Consistent(state) && admitted == !old(state).fenced
    {
      hide Consistent;
      StepConsistent(state, Deliver(msg));
      if state.fenced { return false; }
      var frame := state.nextFrame;
      state := state.(nextFrame := frame + 1);
      AttemptUserDelivery(frame, msg, None);
      return true;
    }

    /** `_attemptUserDelivery`. */
    method AttemptUserDelivery(frame: nat, msg: nat, since: Option<nat>)
      modifies this
      ensures state == Attempted(old(state), frame, msg, since)
    {
      var key := Key(state.session, msg);
      if key in state.delivered {
        state := state.(answers := state.answers + [Answer(frame, Delivered(key))]);
        return;
      }
      if key in state.inflight {
        state := state.(waiting := state.waiting[frame := Waiter(msg, state.inflight[key], since)]);
        return;
      }
      var attempt := state.nextAttempt;
      state := state.(attempts := state.attempts[attempt := Attempt(key, Waking)], nextAttempt := attempt + 1);
      state := state.(inflight := state.inflight[key := attempt]);
      state := state.(waiting := state.waiting[frame := Waiter(msg, attempt, since)]);
    }

    /** `_attemptUserDeliveryOnce` after its await, with `_confirmUserDelivery` on success. */
    method WakeReturned(attempt: nat, wake: Wake)
      requires Consistent(state) && attempt in state.attempts && state.attempts[attempt].phase == Waking
      modifies this
      ensures state == Next(old(state), WakeSettles(attempt, wake)) && Consistent(state)
    {
      hide Consistent;
      StepConsistent(state, WakeSettles(attempt, wake));
      var key := state.attempts[attempt].key;
      state := state.(attempts := state.attempts[attempt := Attempt(key, Settled(wake))]);
      if wake == Ok {
        state := state.(wakes := state.wakes + [key]);
        state := state.(delivered := state.delivered + {key});
      }
    }

    method AttemptFinally(attempt: nat)
      requires Consistent(state) && attempt in state.attempts && state.attempts[attempt].phase.Settled?
      modifies this
      ensures state == Next(old(state), AttemptFinalises(attempt)) && Consistent(state)
    {
      hide Consistent;
      StepConsistent(state, AttemptFinalises(attempt));
      var a := state.attempts[attempt];
      state := state.(inflight := state.inflight - {a.key});
      state := state.(attempts := state.attempts[attempt := Attempt(a.key, Finalised(a.phase.wake))]);
    }

    method SendDeliveryError(frame: nat, cause: Cause)
      modifies this
      ensures state == Answered(old(state), frame, Errored(cause))
    {
      state := state.(answers := state.answers + [Answer(frame, Errored(cause))]);
    }

    /** `_enqueuePendingDelivery`: a full queue gives up its oldest entry. */
    method EnqueuePendingDelivery(frame: nat, msg: nat, enqueuedAt: nat)
      modifies this
      ensures state == Enqueued(old(state), frame, msg, enqueuedAt)
    {
      if |state.queue| >= QUEUE_MAX {
        var dropped := state.queue[0];
        state := state.(queue := state.queue[1..]);
        SendDeliveryError(dropped.frame, Evicted);
      }
      var entry := Entry(frame, msg, state.nextQueueId, enqueuedAt, Due(state.now, enqueuedAt), 0);
      state := state.(nextQueueId := state.nextQueueId + 1);
      state := state.(queue := state.queue + [entry]);
    }

    /** The rest of `_deliverUserMessage` or of a drained replay, once its attempt is over. */
    method DeliveryReturned(frame: nat)
      requires Consistent(state) && frame in state.waiting && state.waiting[frame].attempt in state.attempts
      requires state.attempts[state.waiting[frame].attempt].phase.Finalised?
      modifies this
      ensures state == Next(old(state), WaiterResumes(frame)) && Consistent(state)
    {
      hide Consistent, Enqueued;
      StepConsistent(state, WaiterResumes(frame));
      var waiter := state.waiting[frame];
      var attempt := state.attempts[waiter.attempt];
      state := state.(waiting := state.waiting - {frame});
      match attempt.phase.wake {
        case Ok => { state := state.(answers := state.answers + [Answer(frame, Delivered(attempt.key))]); }
        case Recoverable => {
          if waiter.since.None? {
            EnqueuePendingDelivery(frame, waiter.msg, state.now);
          } else if state.now - waiter.since.value >= TTL {
            SendDeliveryError(frame, TooOld(waiter.since.value));
          } else {
            EnqueuePendingDelivery(frame, waiter.msg, waiter.since.value);
          }
        }
        case Failed => { SendDeliveryError(frame, WakeFailed(waiter.attempt)); }
        case Threw => { SendDeliveryError(frame, WakeFailed(waiter.attempt)); }
      }
    }

    /** `findIndex` by queue id; the length of the queue when there is none. */
    method FindQueued(queueId: nat) returns (i: nat)
      ensures i == IndexOf(state.queue, queueId) <= |state.queue|
      ensures forall j | 0 <= j < i :: state.queue[j].queueId != queueId
      ensures i < |state.queue| ==> state.queue[i].queueId == queueId
    {
      i := 0;
      assert state.queue[0..] == state.queue;
      while i < |state.queue| && state.queue[i].queueId != queueId
        invariant 0 <= i <= |state.queue|
        invariant IndexOf(state.queue, queueId) == i + IndexOf(state.queue[i..], queueId)
      {
        assert state.queue[i..][1..] == state.queue[i + 1..];
        i := i + 1;
      }
    }

    /** The timeout of a queue entry. */
    method PendingTimeout(queueId: nat, replacing: bool)
      requires Consistent(state)
      modifies this
      ensures state == Next(old(state), TimerFires(queueId, replacing)) && Consistent(state)
    {
      hide Consistent, IndexOf;
      StepConsistent(state, TimerFires(queueId, replacing));
      var i := FindQueued(queueId);
      if i == |state.queue| || state.now < state.queue[i].dueAt { return; }
      var entry := state.queue[i];
      if replacing && state.now - entry.enqueuedAt < DEADLINE {
        var renewed := entry.(dueAt := Due(state.now, state.now), renewals := entry.renewals + 1);
        state := state.(queue := state.queue[i := renewed]);
        return;
      }
      state := state.(queue := state.queue[..i] + state.queue[i + 1..]);
      SendDeliveryError(entry.frame, Expired);
    }

    /** `_drainPendingDeliveryQueue`: every entry is attempted afresh, keeping its enqueue time. */
    method DrainPendingDeliveryQueue()
      requires Consistent(state)
      modifies this
      ensures state == Next(old(state), Drain) && Consistent(state)
    {
      hide Consistent, Attempted;
      StepConsistent(state, Drain);
      var entries := state.queue;
      state := state.(queue := []);
      var i := 0;
      assert entries[0..] == entries;
      while i < |entries|
        invariant 0 <= i <= |entries|
        invariant AttemptedEach(state, entries[i..]) == AttemptedEach(old(state).(queue := []), entries)
      {
        assert entries[i..][0] == entries[i] && entries[i..][1..] == entries[i + 1..];
        AttemptUserDelivery(entries[i].frame, entries[i].msg, Some(entries[i].enqueuedAt));
        i := i + 1;
      }
    }

    /** `_failPendingDeliveryQueue`. */
    method FailPendingDeliveryQueue()
      requires Consistent(state)
      modifies this
      ensures state == Next(old(state), FailQueue) && Consistent(state) && state.queue == []
    {
      hide Consistent, Answered;
      StepConsistent(state, FailQueue);
      var entries := state.queue;
      state := state.(queue := []);
      AnsweredEachKeeps(state, entries);
      var i := 0;
      assert entries[0..] == entries;
      while i < |entries|
        invariant 0 <= i <= |entries|
        invariant AnsweredEach(state, entries[i..]) == AnsweredEach(old(state).(queue := []), entries)
      {
        assert entries[i..][0] == entries[i] && entries[i..][1..] == entries[i + 1..];
        SendDeliveryError(entries[i].frame, Closed);
        i := i + 1;
      }
    }

    /** `_resetSessionForNew`, with the projection's transcript reset. */
    method ResetSessionForNew()
      requires Consistent(state)
      modifies this
      ensures state == Next(old(state), Reset) && Consistent(state)
    {
      hide Consistent;
      StepConsistent(state, Reset);
      state := state.(delivered := {});
      state := state.(inflight := map[]);
    }
  }
}
