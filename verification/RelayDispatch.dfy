/** One relay binding's dispatch FIFO (pi-extension/src/extension/relay_transport.ts): two admission budgets,
    one queue, an asynchronous drain loop, a counted overflow audit, and release on unbind.

    A step is one uninterrupted stretch of the event loop: a message arrives, an awaited handler settles, the
    drain loop resumes, its finaliser runs, a summary timer fires, or the binding is unbound. */
module RelayDispatch {
  import opened Prelude

  datatype Queue = Data | Control

  /** What a line decodes to. A blank line is falsy and is never dispatched. */
  datatype Shape = Blank | Undecodable | ControlFrame | OuterFrame | OtherFrame

  /** A retained dispatch; its id is its place in the order of acceptance. */
  datatype Cell = Cell(id: nat, queue: Queue, bytes: nat, shape: Shape)

  /** The drain: no promise; awaiting a handler; awaiting a finished dispatch; finished, finaliser due. */
  datatype Drain = Idle | Handling(consumed: bool) | Settled | Returned

  datatype Result = Done | Consumed | Threw

  /** A handler started, a frame published, a handler claimed a frame, an outer frame's handler threw. */
  datatype Effect = Started(id: nat) | Published(id: nat) | Claimed(id: nat) | Failed(id: nat)

  datatype Usage = Usage(frames: int, bytes: int)
  datatype Audit = Audit(frames: nat, bytes: nat)

  /** One class's overflow state, with the totals admission rejected and the audits emitted so far. */
  datatype Overflow = Overflow(droppedFrames: nat, droppedBytes: nat, auditEmitted: bool, timer: bool,
                               rejected: Audit, audits: seq<Audit>)

  datatype Binding = Binding(
    alive: bool,
    pending: seq<Cell>,
    active: Option<Cell>,
    drain: Drain,
    data: Usage,
    control: Usage,
    accounted: set<nat>,
    dataOverflow: Overflow,
    controlOverflow: Overflow,
    accepted: seq<Cell>,          // history: cells admitted
    taken: seq<Cell>,             // history: cells the drain shifted
    released: seq<nat>,           // history: cells released
    log: seq<Effect>)             // history: effects of the handlers

  const NO_OVERFLOW := Overflow(0, 0, false, false, Audit(0, 0), [])
  const FRESH := Binding(true, [], None, Idle, Usage(0, 0), Usage(0, 0), {}, NO_OVERFLOW, NO_OVERFLOW, [], [], [], [])

  const AUDIT_SUMMARY_EVENTS: nat := 100

  function MaxFrames(q: Queue): nat { match q case Data => 256 case Control => 64 }
  function MaxBytes(q: Queue): nat { match q case Data => 8 * 1024 * 1024 case Control => 256 * 1024 }

  // ----- Steps --------------------------------------------------------------------------

  datatype Step =
    | Message(queue: Queue, bytes: nat, shape: Shape, handled: bool)   // handled: some handler is registered
    | HandlerSettles(result: Result, more: bool)                       // more: another handler follows
    | DrainResumes(handled: bool)
    | Finalise(handled: bool)
    | TimerFires(queue: Queue)
    | Unbind

  function UsageFor(s: Binding, q: Queue): Usage { match q case Data => s.data case Control => s.control }

  function Charge(s: Binding, w: Cell, sign: int): Binding {
    match w.queue
    case Data => s.(data := Usage(s.data.frames + sign, s.data.bytes + sign * w.bytes))
    case Control => s.(control := Usage(s.control.frames + sign, s.control.bytes + sign * w.bytes))
  }

  /** `releaseDispatch`: idempotent. */
  function Release(s: Binding, w: Cell): Binding {
    if w.id !in s.accounted then s
    else Charge(s.(accounted := s.accounted - {w.id}, released := s.released + [w.id]), w, -1)
  }

  function ReleaseEach(s: Binding, ws: seq<Cell>): Binding
    decreases |ws|
  {
    if ws == [] then s else ReleaseEach(Release(s, ws[0]), ws[1..])
  }

  function Publish(s: Binding, w: Cell): Binding { s.(log := s.log + [Published(w.id)]) }
  function Start(s: Binding, w: Cell): Binding { s.(log := s.log + [Started(w.id)]) }
  function Claim(s: Binding, w: Cell): Binding { s.(log := s.log + [Claimed(w.id)]) }
  function Fail(s: Binding, w: Cell): Binding { s.(log := s.log + [Failed(w.id)]) }

  /** The synchronous part of dispatching `w`, on a live binding. */
  function Dispatch(s: Binding, w: Cell, handled: bool): Binding {
    if w.shape.Undecodable? then s.(drain := Settled)
    else if w.shape.OtherFrame? || !handled then Publish(s, w).(drain := Settled)
    else Start(s, w).(drain := Handling(false))
  }

  /** The drain loop, up to its next await. */
  function DrainLoop(s: Binding, handled: bool): Binding
    decreases |s.pending|
  {
    if !s.alive || s.pending == [] then s.(drain := Returned)
    else
      var w := s.pending[0];
      if w.shape.Blank? then DrainLoop(Unshift(Take(s), w), handled) else Dispatch(Take(s), w, handled)
  }

  function Take(s: Binding): (r: Binding)
    requires s.pending != []
    ensures |r.pending| < |s.pending|
  {
    s.(pending := s.pending[1..], taken := s.taken + [s.pending[0]], active := Some(s.pending[0]))
  }

  /** The `finally` of one turn of the drain loop. */
  function Unshift(s: Binding, w: Cell): (r: Binding)
    ensures r.pending == s.pending
  {
    Release(s, w).(active := None)
  }

  function EnsureDrain(s: Binding, handled: bool): Binding {
    if s.drain != Idle || !s.alive then s else DrainLoop(s, handled)
  }

  function Admits(s: Binding, q: Queue, bytes: nat): bool {
    var u := UsageFor(s, q);
    !(u.frames >= MaxFrames(q) || bytes > MaxBytes(q) - u.bytes)
  }

  function Enqueue(s: Binding, w: Cell): Binding {
    Charge(s.(pending := s.pending + [w], accepted := s.accepted + [w], accounted := s.accounted + {w.id}), w, 1)
  }

  function Flush(o: Overflow): Overflow {
    if o.droppedFrames == 0 then o.(timer := false)
    else o.(timer := false, droppedFrames := 0, droppedBytes := 0, auditEmitted := true,
            audits := o.audits + [Audit(o.droppedFrames, o.droppedBytes)])
  }

  function Record(o: Overflow, bytes: nat): Overflow {
    var p := o.(droppedFrames := o.droppedFrames + 1, droppedBytes := o.droppedBytes + bytes,
                rejected := Audit(o.rejected.frames + 1, o.rejected.bytes + bytes));
    if !p.auditEmitted || p.droppedFrames >= AUDIT_SUMMARY_EVENTS then Flush(p) else p.(timer := true)
  }

  function Reject(s: Binding, q: Queue, bytes: nat): Binding {
    match q
    case Data => s.(dataOverflow := Record(s.dataOverflow, bytes))
    case Control => s.(controlOverflow := Record(s.controlOverflow, bytes))
  }

  /** A control line is one that decoded to a control frame. */
  function Received(s: Binding, q: Queue, bytes: nat, shape: Shape, handled: bool): Binding {
    if !s.alive then s                                   // the listener is off
    else if !Admits(s, q, bytes) then Reject(s, q, bytes)
    else EnsureDrain(Enqueue(s, Cell(|s.accepted|, q, bytes, if q == Control then ControlFrame else shape)), handled)
  }

  /** One awaited handler of the active dispatch settles. */
  function HandlerDone(s: Binding, result: Result, more: bool): Binding {
    if !s.drain.Handling? || s.active.None? then s
    else
      var w := s.active.value;
      var control := w.shape.ControlFrame?;
      var consumed := !control && (s.drain.consumed || result == Consumed);
      if !s.alive then s.(drain := Settled)
      else if result == Threw then (if control then Publish(s, w) else Fail(s, w)).(drain := Settled)
      else
        var t := if !control && result == Consumed then Claim(s, w) else s;
        if more then Start(t, w).(drain := Handling(consumed))
        else (if consumed then t else Publish(t, w)).(drain := Settled)
  }

  function Resumed(s: Binding, handled: bool): Binding {
    if s.drain != Settled || s.active.None? then s else DrainLoop(Unshift(s, s.active.value), handled)
  }

  function Finalised(s: Binding, handled: bool): Binding {
    if s.drain != Returned then s
    else
      var t := s.(drain := Idle);
      if t.pending != [] then EnsureDrain(t, handled) else t
  }

  function ActiveCells(s: Binding): seq<Cell> { if s.active.Some? then [s.active.value] else [] }

  function Unbound(s: Binding): Binding {
    if !s.alive then s
    else
      var t := ReleaseEach(s.(alive := false, pending := []), ActiveCells(s) + s.pending);
      t.(dataOverflow := Flush(t.dataOverflow), controlOverflow := Flush(t.controlOverflow))
  }

  function Fired(s: Binding, q: Queue): Binding {
    match q
    case Data => if s.dataOverflow.timer then s.(dataOverflow := Flush(s.dataOverflow)) else s
    case Control => if s.controlOverflow.timer then s.(controlOverflow := Flush(s.controlOverflow)) else s
  }

  function Next(s: Binding, step: Step): Binding {
    match step
    case Message(q, bytes, shape, handled) => Received(s, q, bytes, shape, handled)
    case HandlerSettles(result, more) => HandlerDone(s, result, more)
    case DrainResumes(handled) => Resumed(s, handled)
    case Finalise(handled) => Finalised(s, handled)
    case TimerFires(q) => Fired(s, q)
    case Unbind => Unbound(s)
  }

  function Run(s: Binding, steps: seq<Step>): Binding
    decreases |steps|
  {
    if steps == [] then s else Run(Next(s, steps[0]), steps[1..])
  }

  // ----- What every step keeps ------------------------------------------------------------

  function UsageOf(ws: seq<Cell>, q: Queue): Usage {
    if ws == [] then Usage(0, 0)
    else
      var u := UsageOf(ws[..|ws| - 1], q);
      var w := ws[|ws| - 1];
      if w.queue == q then Usage(u.frames + 1, u.bytes + w.bytes) else u
  }

  /** The cells before this place in the order of acceptance have been released. */
  function Held(s: Binding): int {
    if !s.alive then |s.accepted| else if s.active.Some? then |s.taken| - 1 else |s.taken|
  }

  /** The drain takes accepted cells in order of acceptance, all of them while the binding lives. */
  ghost predicate Fifo(s: Binding) {
    && (forall i | 0 <= i < |s.accepted| :: s.accepted[i].id == i)
    && s.taken <= s.accepted
    && s.pending == (if s.alive then s.accepted[|s.taken|..] else [])
    && (s.active.Some? ==> s.taken != [] && s.active.value == s.taken[|s.taken| - 1])
  }

  /** The counters are those of the accounted cells: the active one and the queued ones. */
  ghost predicate Counted(accepted: seq<Cell>, held: int, data: Usage, control: Usage, accounted: set<nat>, released: seq<nat>) {
    && 0 <= held <= |accepted|
    && data == UsageOf(accepted[held..], Data) && control == UsageOf(accepted[held..], Control)
    && (forall id: nat :: id in accounted <==> held <= id < |accepted|)
    && |released| == held && (forall i | 0 <= i < held :: released[i] == i)
  }

  ghost predicate Within(u: Usage, q: Queue) { 0 <= u.frames <= MaxFrames(q) && 0 <= u.bytes <= MaxBytes(q) }

  /** An active cell means a dispatch in flight, and a live binding with pending work is never idle. */
  ghost predicate Awake(s: Binding) {
    && (s.active.Some? <==> s.drain.Handling? || s.drain.Settled?)
    && (s.alive && s.pending != [] ==> s.drain != Idle)
    && (s.drain.Handling? ==> s.active.Some? && Offered(s.active.value, s.drain.consumed))
  }

  /** Only control and outer frames are offered to handlers, and only outer ones can be claimed. */
  predicate Offered(w: Cell, claimed: bool) { w.shape.OuterFrame? || (w.shape.ControlFrame? && !claimed) }

  predicate ClaimedSoFar(d: Drain) { d.Handling? && d.consumed }

  function Of(e: Effect): nat { e.id }

  predicate Final(e: Effect) { e.Published? || e.Failed? }

  /** Effects follow the order of acceptance; a publication or a failure is a frame's last effect; and a
      claimed frame is never published. */
  ghost predicate Ordered(log: seq<Effect>, taken: nat, handling: bool, claimed: bool) {
    && (forall i, j | 0 <= i < j < |log| ::
          && Of(log[i]) <= Of(log[j])
          && (Final(log[i]) || (log[i].Claimed? && log[j].Published?) ==> Of(log[i]) < Of(log[j])))
    && (forall i | 0 <= i < |log| ::
          && Of(log[i]) < taken
          && (handling && (Final(log[i]) || (log[i].Claimed? && !claimed)) ==> Of(log[i]) < taken - 1))
  }

  /** What became of a frame whose dispatch is over: published, or for an outer frame perhaps claimed or failed. */
  ghost predicate Resolved(log: seq<Effect>, w: Cell) {
    match w.shape
    case Blank => true
    case Undecodable => true
    case OuterFrame => Published(w.id) in log || Claimed(w.id) in log || Failed(w.id) in log
    case _ => Published(w.id) in log
  }

  /** On a live binding every dispatch that is over came to something. */
  ghost predicate Handled(alive: bool, taken: seq<Cell>, log: seq<Effect>, drain: Drain) {
    alive ==>
      && (forall i | 0 <= i < |taken| - (if drain.Handling? then 1 else 0) :: Resolved(log, taken[i]))
      && (ClaimedSoFar(drain) ==> taken != [] && Claimed(taken[|taken| - 1].id) in log)
  }

  function TotalOf(audits: seq<Audit>): Audit {
    if audits == [] then Audit(0, 0)
    else
      var t := TotalOf(audits[..|audits| - 1]);
      Audit(t.frames + audits[|audits| - 1].frames, t.bytes + audits[|audits| - 1].bytes)
  }

  /** Audits and what is still unaudited add up to what admission rejected; unaudited drops are fewer than
      a summary's worth and have a timer running; nothing is left unaudited once unbound. */
  ghost predicate Audited(o: Overflow, alive: bool) {
    && o.rejected == Audit(TotalOf(o.audits).frames + o.droppedFrames, TotalOf(o.audits).bytes + o.droppedBytes)
    && o.droppedFrames < AUDIT_SUMMARY_EVENTS
    && (o.droppedFrames > 0 ==> o.timer && o.auditEmitted)
    && (o.droppedFrames == 0 ==> o.droppedBytes == 0)
    && (o.auditEmitted <==> o.audits != [])
    && (!alive ==> o.droppedFrames == 0 && !o.timer)
  }

  ghost predicate Booked(s: Binding) {
    && Counted(s.accepted, Held(s), s.data, s.control, s.accounted, s.released)
    && Within(s.data, Data) && Within(s.control, Control)
  }

  ghost predicate Consistent(s: Binding) {
    && Fifo(s) && Booked(s) && Awake(s)
    && Ordered(s.log, |s.taken|, s.drain.Handling?, ClaimedSoFar(s.drain))
    && Handled(s.alive, s.taken, s.log, s.drain)
    && Audited(s.dataOverflow, s.alive) && Audited(s.controlOverflow, s.alive)
  }

  lemma FreshConsistent()
    ensures Consistent(FRESH)
  {
  }

  // ----- Counters ----------------------------------------------------------------------

  lemma {:induction false} UsageConcat(a: seq<Cell>, b: seq<Cell>, q: Queue)
    ensures UsageOf(a + b, q) == Usage(UsageOf(a, q).frames + UsageOf(b, q).frames, UsageOf(a, q).bytes + UsageOf(b, q).bytes)
  {
    if b == [] {
      assert a + b == a;
    } else {
      UsageConcat(a, b[..|b| - 1], q);
      assert (a + b)[..|a + b| - 1] == a + b[..|b| - 1];
    }
  }

  lemma {:induction false} UsageNatural(ws: seq<Cell>, q: Queue)
    ensures 0 <= UsageOf(ws, q).frames <= |ws| && 0 <= UsageOf(ws, q).bytes
  {
    if ws != [] { UsageNatural(ws[..|ws| - 1], q); }
  }

  lemma UsageOne(w: Cell, q: Queue)
    ensures UsageOf([w], q) == if w.queue == q then Usage(1, w.bytes) else Usage(0, 0)
  {
    assert [w][..0] == [];
  }

  /** Usage of the held cells when the oldest of them goes. */
  lemma UsageFirst(accepted: seq<Cell>, held: nat, q: Queue)
    requires held < |accepted|
    ensures var w, u, v := accepted[held], UsageOf(accepted[held..], q), UsageOf(accepted[held + 1..], q);
            u == if w.queue == q then Usage(v.frames + 1, v.bytes + w.bytes) else v
  {
    assert accepted[held..] == [accepted[held]] + accepted[held + 1..];
    UsageConcat([accepted[held]], accepted[held + 1..], q);
    UsageOne(accepted[held], q);
  }

  /** Releasing the oldest held cell. */
  lemma ReleaseCounted(s: Binding, held: nat)
    requires Counted(s.accepted, held, s.data, s.control, s.accounted, s.released) && held < |s.accepted|
    requires s.accepted[held].id == held && Within(s.data, Data) && Within(s.control, Control)
    ensures var r := Release(s, s.accepted[held]);
            && Counted(r.accepted, held + 1, r.data, r.control, r.accounted, r.released)
            && Within(r.data, Data) && Within(r.control, Control)
            && r == s.(data := r.data, control := r.control, accounted := r.accounted, released := r.released)
  {
    hide UsageOf;
    UsageFirst(s.accepted, held, Data);
    UsageFirst(s.accepted, held, Control);
    UsageNatural(s.accepted[held + 1..], Data);
    UsageNatural(s.accepted[held + 1..], Control);
  }

  /** A released cell stays released. */
  lemma ReleaseAgain(s: Binding, held: nat, w: Cell)
    requires Counted(s.accepted, held, s.data, s.control, s.accounted, s.released) && w.id < held
    ensures Release(s, w) == s
  {
    hide UsageOf;
  }

  lemma {:induction false} ReleaseEachCounted(s: Binding, held: nat)
    requires Counted(s.accepted, held, s.data, s.control, s.accounted, s.released)
    requires forall i | 0 <= i < |s.accepted| :: s.accepted[i].id == i
    requires Within(s.data, Data) && Within(s.control, Control)
    ensures var r := ReleaseEach(s, s.accepted[held..]);
            && Counted(r.accepted, |s.accepted|, r.data, r.control, r.accounted, r.released)
            && Within(r.data, Data) && Within(r.control, Control)
            && r == s.(data := r.data, control := r.control, accounted := r.accounted, released := r.released)
    decreases |s.accepted| - held
  {
    hide Counted, Within, Release;
    CountedBound(s.accepted, held, s.data, s.control, s.accounted, s.released);
    if held < |s.accepted| {
      assert s.accepted[held..][0] == s.accepted[held] && s.accepted[held..][1..] == s.accepted[held + 1..];
      ReleaseCounted(s, held);
      ReleaseEachCounted(Release(s, s.accepted[held]), held + 1);
    }
  }

  lemma CountedBound(accepted: seq<Cell>, held: int, data: Usage, control: Usage, accounted: set<nat>, released: seq<nat>)
    requires Counted(accepted, held, data, control, accounted, released)
    ensures 0 <= held <= |accepted|
  {
  }

  /** Admitting one more cell. */
  lemma EnqueueCounted(s: Binding, held: nat, w: Cell)
    requires Counted(s.accepted, held, s.data, s.control, s.accounted, s.released) && w.id == |s.accepted|
    requires Within(s.data, Data) && Within(s.control, Control) && Admits(s, w.queue, w.bytes)
    ensures var r := Enqueue(s, w);
            && Counted(r.accepted, held, r.data, r.control, r.accounted, r.released)
            && Within(r.data, Data) && Within(r.control, Control)
            && r == s.(pending := s.pending + [w], accepted := s.accepted + [w], accounted := r.accounted,
                       data := r.data, control := r.control)
  {
    hide UsageOf;
    var live := s.accepted[held..];
    assert (s.accepted + [w])[held..] == live + [w];
    UsageConcat(live, [w], Data);
    UsageConcat(live, [w], Control);
    UsageOne(w, Data);
    UsageOne(w, Control);
  }

  // ----- Steps of the drain ---------------------------------------------------------------

  /** The parts of a state the drain's own steps leave alone. */
  ghost predicate SameIntake(s: Binding, t: Binding) {
    && t.alive == s.alive && t.accepted == s.accepted
    && t.dataOverflow == s.dataOverflow && t.controlOverflow == s.controlOverflow
  }

  lemma TakeKeeps(s: Binding)
    requires Fifo(s) && Booked(s) && s.active.None? && s.alive && s.pending != []
    ensures Fifo(Take(s)) && Booked(Take(s)) && |s.taken| < |s.accepted| && s.pending[0] == s.accepted[|s.taken|]
  {
    hide Counted, Within;
    var n := |s.taken|;
    assert s.accepted[n..][1..] == s.accepted[n + 1..];
    assert s.accepted[..n + 1] == s.accepted[..n] + [s.accepted[n]];
  }

  /** The `finally` releases the active cell, or finds it released already by an unbind. */
  lemma UnshiftKeeps(s: Binding)
    requires Fifo(s) && Booked(s) && s.active.Some?
    ensures var r := Unshift(s, s.active.value);
            && Fifo(r) && Booked(r) && r.active.None? && SameIntake(s, r)
            && r.log == s.log && r.taken == s.taken && r.drain == s.drain && r.pending == s.pending
  {
    hide Counted, Within, Release;
    var w := s.active.value;
    var last := |s.taken| - 1;
    assert w == s.accepted[last];
    if s.alive { ReleaseCounted(s, last); } else { ReleaseAgain(s, |s.accepted|, w); }
  }

  lemma OrderedMore(log: seq<Effect>, taken: nat, claimed: bool, e: Effect, handling: bool, later: bool)
    requires Ordered(log, taken, true, claimed) && taken > 0 && Of(e) == taken - 1
    requires (e.Published? ==> !claimed) && (handling ==> !Final(e)) && (claimed || e.Claimed? ==> later)
    ensures Ordered(log + [e], taken, handling, later)
  {
  }

  lemma OrderedWeaken(log: seq<Effect>, taken: nat, handling: bool, claimed: bool)
    requires Ordered(log, taken, handling, claimed)
    ensures Ordered(log, taken, false, false) && Ordered(log, taken + 1, true, false)
  {
  }

  lemma ResolvedMore(log: seq<Effect>, e: Effect, w: Cell)
    requires Resolved(log, w)
    ensures Resolved(log + [e], w)
  {
  }

  /** One more effect, and the dispatch goes on or is over. */
  lemma HandledMore(taken: seq<Cell>, log: seq<Effect>, d: Drain, e: Effect, d': Drain)
    requires Handled(true, taken, log, d) && d.Handling? && taken != []
    requires d'.Handling? || Resolved(log + [e], taken[|taken| - 1])
    requires ClaimedSoFar(d') ==> ClaimedSoFar(d) || e == Claimed(taken[|taken| - 1].id)
    ensures Handled(true, taken, log + [e], d')
  {
    hide Resolved;
    forall i | 0 <= i < |taken| - (if d'.Handling? then 1 else 0) ensures Resolved(log + [e], taken[i]) {
      if i < |taken| - 1 { ResolvedMore(log, e, taken[i]); }
    }
    if ClaimedSoFar(d) { assert Claimed(taken[|taken| - 1].id) in log + [e]; }
  }

  /** Nothing more, and the dispatch is over. */
  lemma HandledDone(taken: seq<Cell>, log: seq<Effect>, d: Drain)
    requires Handled(true, taken, log, d) && d.Handling? && taken != [] && Resolved(log, taken[|taken| - 1])
    ensures Handled(true, taken, log, Settled)
  {
  }

  lemma HandledTaken(taken: seq<Cell>, log: seq<Effect>, w: Cell, d: Drain)
    requires Handled(true, taken, log, d) && !d.Handling?
    ensures Handled(true, taken + [w], log, Handling(false))
  {
    hide Resolved;
  }

  lemma HandledQuiet(alive: bool, taken: seq<Cell>, log: seq<Effect>, d: Drain, d': Drain)
    requires Handled(alive, taken, log, d) && !d.Handling? && !d'.Handling?
    ensures Handled(alive, taken, log, d')
  {
    hide Resolved;
  }

  lemma ResolvedBy(log: seq<Effect>, w: Cell, e: Effect)
    requires e == Published(w.id) || (w.shape.OuterFrame? && (e == Claimed(w.id) || e == Failed(w.id)))
    ensures Resolved(log + [e], w) && (e in log ==> Resolved(log, w))
  {
    assert e in log + [e];
  }

  /** What the drain may rely on between two cells. */
  ghost predicate Between(s: Binding) {
    && Fifo(s) && Booked(s) && s.active.None?
    && Ordered(s.log, |s.taken|, false, false) && Handled(s.alive, s.taken, s.log, Returned)
    && Audited(s.dataOverflow, s.alive) && Audited(s.controlOverflow, s.alive)
  }

  lemma DispatchKeeps(s: Binding, w: Cell, handled: bool)
    requires Fifo(s) && Booked(s) && s.active == Some(w) && s.alive && w.shape != Blank
    requires Ordered(s.log, |s.taken|, true, false) && Handled(true, s.taken, s.log, Handling(false))
    requires Audited(s.dataOverflow, s.alive) && Audited(s.controlOverflow, s.alive)
    ensures Consistent(Dispatch(s, w, handled)) && SameIntake(s, Dispatch(s, w, handled))
  {
    hide Counted, Within, Ordered, Handled, Audited;
    OrderedWeaken(s.log, |s.taken|, true, false);
    OrderedMore(s.log, |s.taken|, false, Started(w.id), true, false);
    OrderedMore(s.log, |s.taken|, false, Published(w.id), false, false);
    HandledMore(s.taken, s.log, Handling(false), Started(w.id), Handling(false));
    ResolvedBy(s.log, w, Published(w.id));
    HandledMore(s.taken, s.log, Handling(false), Published(w.id), Settled);
    if w.shape.Undecodable? { HandledDone(s.taken, s.log, Handling(false)); }
  }

  lemma {:induction false} DrainLoopKeeps(s: Binding, handled: bool)
    requires Between(s)
    ensures Consistent(DrainLoop(s, handled)) && SameIntake(s, DrainLoop(s, handled))
    decreases |s.pending|
  {
    hide Fifo, Booked, Ordered, Handled, Audited, Dispatch, Unshift;
    if s.alive && s.pending != [] {
      var w, t := s.pending[0], Take(s);
      TakeKeeps(s);
      OrderedWeaken(s.log, |s.taken|, false, false);
      OrderedWeaken(s.log, |s.taken| + 1, true, false);
      HandledTaken(s.taken, s.log, w, Returned);
      if w.shape.Blank? {
        UnshiftKeeps(t);
        HandledDone(t.taken, t.log, Handling(false));
        HandledQuiet(true, t.taken, t.log, Settled, Returned);
        DrainLoopKeeps(Unshift(t, w), handled);
      } else {
        DispatchKeeps(t, w, handled);
      }
    } else {
      DrainEnds(s);
    }
  }

  lemma DrainEnds(s: Binding)
    requires Between(s)
    ensures Consistent(s.(drain := Returned))
  {
    hide Counted, Within, Ordered, Handled, Audited;
  }

  lemma EnqueueKeeps(s: Binding, w: Cell)
    requires Fifo(s) && Booked(s) && s.alive && w.id == |s.accepted| && Admits(s, w.queue, w.bytes)
    ensures var t := Enqueue(s, w);
            && Fifo(t) && Booked(t) && t.alive && t.active == s.active && t.drain == s.drain && t.taken == s.taken
            && t.log == s.log && t.dataOverflow == s.dataOverflow && t.controlOverflow == s.controlOverflow
  {
    hide Counted, Within, Admits;
    EnqueueCounted(s, Held(s), w);
    assert (s.accepted + [w])[|s.taken|..] == s.accepted[|s.taken|..] + [w];
    assert s.taken <= s.accepted + [w];
  }

  lemma ReceivedKeeps(s: Binding, q: Queue, bytes: nat, shape: Shape, handled: bool)
    requires Consistent(s)
    ensures Consistent(Received(s, q, bytes, shape, handled))
  {
    hide Fifo, Booked, Ordered, Handled, Audited, Admits, DrainLoop, Enqueue, Reject;
    if s.alive {
      if Admits(s, q, bytes) {
        var w := Cell(|s.accepted|, q, bytes, if q == Control then ControlFrame else shape);
        EnqueueKeeps(s, w);
        if s.drain == Idle {
          OrderedWeaken(s.log, |s.taken|, false, false);
          HandledQuiet(s.alive, s.taken, s.log, Idle, Returned);
          DrainLoopKeeps(Enqueue(s, w), handled);
        }
      } else {
        RejectKeeps(s, q, bytes);
      }
    }
  }

  lemma TotalGrows(audits: seq<Audit>, a: Audit)
    ensures TotalOf(audits + [a]) == Audit(TotalOf(audits).frames + a.frames, TotalOf(audits).bytes + a.bytes)
  {
    assert (audits + [a])[..|audits|] == audits;
  }

  lemma FlushKeeps(o: Overflow, alive: bool)
    requires o.rejected == Audit(TotalOf(o.audits).frames + o.droppedFrames, TotalOf(o.audits).bytes + o.droppedBytes)
    requires (o.droppedFrames == 0 ==> o.droppedBytes == 0) && (o.auditEmitted <==> o.audits != [])
    ensures Audited(Flush(o), alive) && Flush(o).rejected == o.rejected
  {
    hide TotalOf;
    TotalGrows(o.audits, Audit(o.droppedFrames, o.droppedBytes));
    assert o.audits + [Audit(o.droppedFrames, o.droppedBytes)] != [];
  }

  lemma RecordKeeps(o: Overflow, bytes: nat)
    requires Audited(o, true)
    ensures Audited(Record(o, bytes), true)
  {
    hide TotalOf, Flush;
    FlushKeeps(o.(droppedFrames := o.droppedFrames + 1, droppedBytes := o.droppedBytes + bytes,
                  rejected := Audit(o.rejected.frames + 1, o.rejected.bytes + bytes)), true);
  }

  lemma RejectKeeps(s: Binding, q: Queue, bytes: nat)
    requires Consistent(s) && s.alive
    ensures Consistent(Reject(s, q, bytes))
  {
    hide Counted, Within, Ordered, Handled, Audited, Record;
    RecordKeeps(s.dataOverflow, bytes);
    RecordKeeps(s.controlOverflow, bytes);
  }

  lemma FiredKeeps(s: Binding, q: Queue)
    requires Consistent(s)
    ensures Consistent(Fired(s, q))
  {
    hide Counted, Within, Ordered, Handled, TotalOf, Flush;
    FlushKeeps(s.dataOverflow, s.alive);
    FlushKeeps(s.controlOverflow, s.alive);
  }

  lemma HandlerDoneKeeps(s: Binding, result: Result, more: bool)
    requires Consistent(s)
    ensures Consistent(HandlerDone(s, result, more))
  {
    hide Counted, Within, Ordered, Handled, Audited;
    if s.drain.Handling? {
      OrderedWeaken(s.log, |s.taken|, true, s.drain.consumed);
      if s.alive { HandlerLogs(s, result, more); } else { UnboundHandled(s.taken, s.log, s.drain, Settled); }
    }
  }

  lemma UnboundHandled(taken: seq<Cell>, log: seq<Effect>, d: Drain, d': Drain)
    ensures Handled(false, taken, log, d')
  {
  }

  lemma HandlerLogs(s: Binding, result: Result, more: bool)
    requires s.alive && s.drain.Handling? && s.active.Some? && s.taken != [] && s.active.value == s.taken[|s.taken| - 1]
    requires s.active.value.id == |s.taken| - 1 && Offered(s.active.value, s.drain.consumed)
    requires Ordered(s.log, |s.taken|, true, s.drain.consumed) && Handled(true, s.taken, s.log, s.drain)
    ensures var t := HandlerDone(s, result, more);
            Ordered(t.log, |t.taken|, t.drain.Handling?, ClaimedSoFar(t.drain)) && Handled(true, t.taken, t.log, t.drain)
  {
    hide Ordered, Handled, Resolved;
    var w, n, was := s.active.value, |s.taken|, s.drain.consumed;
    var control := w.shape.ControlFrame?;
    OrderedWeaken(s.log, n, true, was);
    if result == Threw {
      var e := if control then Published(w.id) else Failed(w.id);
      OrderedMore(s.log, n, was, e, false, was);
      OrderedWeaken(s.log + [e], n, false, was);
      ResolvedBy(s.log, w, e);
      HandledMore(s.taken, s.log, s.drain, e, Settled);
    } else {
      var claims := !control && result == Consumed;
      var consumed := was || claims;
      var t := if claims then Claim(s, w) else s;
      if claims {
        OrderedMore(s.log, n, was, Claimed(w.id), true, true);
        HandledMore(s.taken, s.log, s.drain, Claimed(w.id), Handling(true));
        ResolvedBy(s.log, w, Claimed(w.id));
      } else {
        assert s.drain == Handling(was);
      }
      if more {
        OrderedMore(t.log, n, consumed, Started(w.id), true, consumed);
        HandledMore(s.taken, t.log, Handling(consumed), Started(w.id), Handling(consumed));
      } else if consumed {
        OrderedWeaken(t.log, n, true, true);
        if !claims { ClaimResolves(s.taken, s.log, s.drain); }
        HandledDone(s.taken, t.log, Handling(true));
      } else {
        OrderedMore(t.log, n, false, Published(w.id), false, false);
        ResolvedBy(t.log, w, Published(w.id));
        HandledMore(s.taken, t.log, Handling(false), Published(w.id), Settled);
      }
    }
  }

  lemma ClaimResolves(taken: seq<Cell>, log: seq<Effect>, d: Drain)
    requires Handled(true, taken, log, d) && ClaimedSoFar(d) && taken[|taken| - 1].shape.OuterFrame?
    ensures Resolved(log, taken[|taken| - 1])
  {
  }

  lemma ResumedKeeps(s: Binding, handled: bool)
    requires Consistent(s)
    ensures Consistent(Resumed(s, handled))
  {
    hide Fifo, Booked, Ordered, Handled, Audited, Unshift, DrainLoop;
    if s.drain == Settled {
      UnshiftKeeps(s);
      OrderedWeaken(s.log, |s.taken|, false, false);
      HandledQuiet(s.alive, s.taken, s.log, Settled, Returned);
      DrainLoopKeeps(Unshift(s, s.active.value), handled);
    }
  }

  lemma FinalisedKeeps(s: Binding, handled: bool)
    requires Consistent(s)
    ensures Consistent(Finalised(s, handled))
  {
    hide Counted, Within, Ordered, Handled, Audited, DrainLoop;
    if s.drain == Returned {
      HandledQuiet(s.alive, s.taken, s.log, Returned, Idle);
      if s.pending != [] { DrainLoopKeeps(s.(drain := Idle), handled); }
    }
  }

  lemma UnboundKeeps(s: Binding)
    requires Consistent(s)
    ensures Consistent(Unbound(s))
  {
    hide Counted, Within, Ordered, Handled, ReleaseEach, Flush, TotalOf;
    if s.alive {
      var held := Held(s);
      CountedBound(s.accepted, held, s.data, s.control, s.accounted, s.released);
      assert ActiveCells(s) + s.pending == s.accepted[held..];
      ReleaseEachCounted(s.(alive := false, pending := []), held);
      UnboundHandled(s.taken, s.log, s.drain, s.drain);
      FlushKeeps(s.dataOverflow, false);
      FlushKeeps(s.controlOverflow, false);
    }
  }

  /** Every step keeps the queue's order, its books, its audit and its wake-up. */
  lemma StepConsistent(s: Binding, step: Step)
    requires Consistent(s)
    ensures Consistent(Next(s, step))
  {
    hide Consistent, Received, HandlerDone, Resumed, Finalised, Fired, Unbound;
    match step
    case Message(q, bytes, shape, handled) => ReceivedKeeps(s, q, bytes, shape, handled);
    case HandlerSettles(result, more) => HandlerDoneKeeps(s, result, more);
    case DrainResumes(handled) => ResumedKeeps(s, handled);
    case Finalise(handled) => FinalisedKeeps(s, handled);
    case TimerFires(q) => FiredKeeps(s, q);
    case Unbind => UnboundKeeps(s);
  }

  /** Histories are only added to. */
  ghost predicate Grows(s: Binding, t: Binding) {
    s.accepted <= t.accepted && s.taken <= t.taken && s.log <= t.log && s.released <= t.released
  }

  lemma {:induction false} DrainLoopGrows(s: Binding, handled: bool)
    ensures Grows(s, DrainLoop(s, handled))
    decreases |s.pending|
  {
    if s.alive && s.pending != [] && s.pending[0].shape.Blank? {
      DrainLoopGrows(Unshift(Take(s), s.pending[0]), handled);
    }
  }

  lemma {:induction false} ReleaseEachGrows(s: Binding, ws: seq<Cell>)
    ensures Grows(s, ReleaseEach(s, ws))
    decreases |ws|
  {
    if ws != [] { ReleaseEachGrows(Release(s, ws[0]), ws[1..]); }
  }

  lemma EnqueueGrows(s: Binding, w: Cell)
    ensures Grows(s, Enqueue(s, w))
  {
  }

  lemma UnshiftGrows(s: Binding, w: Cell)
    ensures Grows(s, Unshift(s, w))
  {
  }

  lemma StepGrows(s: Binding, step: Step)
    ensures Grows(s, Next(s, step))
  {
    hide DrainLoop, Unshift, ReleaseEach, Admits, Flush, Record, Enqueue;
    match step
    case Message(q, bytes, shape, handled) =>
      var w := Cell(|s.accepted|, q, bytes, if q == Control then ControlFrame else shape);
      EnqueueGrows(s, w);
      DrainLoopGrows(Enqueue(s, w), handled);
    case DrainResumes(handled) => if s.active.Some? { UnshiftGrows(s, s.active.value); DrainLoopGrows(Unshift(s, s.active.value), handled); }
    case Finalise(handled) => DrainLoopGrows(s.(drain := Idle), handled);
    case Unbind => ReleaseEachGrows(s.(alive := false, pending := []), ActiveCells(s) + s.pending);
    case _ =>
  }

  /** Over every run the invariants hold, and what was taken, done and released stays so, in its order. */
  lemma {:induction false} RunConsistent(s: Binding, steps: seq<Step>)
    requires Consistent(s)
    ensures Consistent(Run(s, steps)) && Grows(s, Run(s, steps))
    decreases |steps|
  {
    hide Consistent, Next;
    if steps != [] {
      StepConsistent(s, steps[0]);
      StepGrows(s, steps[0]);
      RunConsistent(Next(s, steps[0]), steps[1..]);
    }
  }

  // ----- What that means ---------------------------------------------------------------------

  /** The accounted cells are the ones held: those not yet released, each released once. */
  lemma CountedMeans(accepted: seq<Cell>, held: int, data: Usage, control: Usage, accounted: set<nat>, released: seq<nat>)
    requires Counted(accepted, held, data, control, accounted, released)
    requires forall i | 0 <= i < |accepted| :: accepted[i].id == i
    ensures forall i, j | 0 <= i < j < |released| :: released[i] != released[j]
    ensures forall i | 0 <= i < |accepted| :: i in accounted <==> held <= i
    ensures forall i: nat | i < |accepted| :: i in released <==> i < held
  {
    hide UsageOf;
    forall i: nat | i < |accepted| ensures i in released <==> i < held {
      if i < held { assert released[i] == i; }
    }
  }

  /** Every cell is released exactly once: no later than the unbind, and never while it waits or runs. */
  lemma ReleasedOnce(s: Binding)
    requires Consistent(s)
    ensures forall i, j | 0 <= i < j < |s.released| :: s.released[i] != s.released[j]
    ensures forall i: nat | i < |s.accepted| :: s.accepted[i].id == i && (i in s.accounted <==> i !in s.released)
    ensures s.alive ==> forall i: nat | |s.taken| <= i < |s.accepted| :: i in s.accounted
    ensures s.alive && s.active.Some? ==> s.active.value.id in s.accounted
    ensures !s.alive ==> |s.released| == |s.accepted| && s.data == s.control == Usage(0, 0)
  {
    hide Ordered, Handled, Audited, Within;
    CountedMeans(s.accepted, Held(s), s.data, s.control, s.accounted, s.released);
    assert s.accepted[|s.accepted|..] == [];
  }

  /** Admission on a live binding is exact: a frame is refused only when it would break its class's caps
      over the cells then waiting or running. */
  lemma AdmissionExact(s: Binding, q: Queue, bytes: nat)
    requires Consistent(s) && s.alive
    ensures var live := ActiveCells(s) + s.pending;
            Admits(s, q, bytes) <==>
              UsageOf(live, q).frames + 1 <= MaxFrames(q) && UsageOf(live, q).bytes + bytes <= MaxBytes(q)
  {
    hide Ordered, Handled, Audited, Within, UsageOf;
    assert ActiveCells(s) + s.pending == s.accepted[Held(s)..];
  }

  lemma {:induction false} ReleaseEachQuiet(s: Binding, ws: seq<Cell>)
    ensures ReleaseEach(s, ws).log == s.log && ReleaseEach(s, ws).taken == s.taken && ReleaseEach(s, ws).alive == s.alive
    decreases |ws|
  {
    if ws != [] { ReleaseEachQuiet(Release(s, ws[0]), ws[1..]); }
  }

  /** Unbinding starts and publishes nothing, and neither does anything after it. */
  lemma StepQuiet(s: Binding, step: Step)
    requires !s.alive || step == Unbind
    ensures var t := Next(s, step); !t.alive && t.log == s.log && t.taken == s.taken
  {
    hide Flush, ReleaseEach;
    match step
    case Unbind => if s.alive { ReleaseEachQuiet(s.(alive := false, pending := []), ActiveCells(s) + s.pending); }
    case _ =>
  }

  lemma {:induction false} QuietAfterUnbind(s: Binding, steps: seq<Step>)
    requires !s.alive
    ensures var t := Run(s, steps); !t.alive && t.log == s.log && t.taken == s.taken
    decreases |steps|
  {
    hide Next;
    if steps != [] {
      StepQuiet(s, steps[0]);
      QuietAfterUnbind(Next(s, steps[0]), steps[1..]);
    }
  }

  // ----- No lost wake-up ----------------------------------------------------------------------

  /** A step of the drain itself: the awaited handler settles somehow, the loop resumes, or the finaliser runs. */
  predicate Own(s: Binding, step: Step) {
    match s.drain
    case Idle => false
    case Handling(_) => step.HandlerSettles?
    case Settled => step.DrainResumes?
    case Returned => step.Finalise?
  }

  ghost predicate OwnRun(s: Binding, steps: seq<Step>)
    decreases |steps|
  {
    steps != [] ==> Own(s, steps[0]) && OwnRun(Next(s, steps[0]), steps[1..])
  }

  /** Another handler follows one that returned normally. */
  predicate GoesOn(step: Step) { step.HandlerSettles? && step.more && step.result != Threw }

  /** How often a handler was followed by another. */
  function Followed(steps: seq<Step>): nat
    decreases |steps|
  {
    if steps == [] then 0 else (if GoesOn(steps[0]) then 1 else 0) + Followed(steps[1..])
  }

  function Work(s: Binding): nat {
    4 * |s.pending| + match s.drain case Idle => 0 case Handling(_) => 3 case Settled => 2 case Returned => 1
  }

  lemma {:induction false} DrainLoopWork(s: Binding, handled: bool)
    ensures Work(DrainLoop(s, handled)) <= 4 * |s.pending| + 1
    decreases |s.pending|
  {
    if s.alive && s.pending != [] && s.pending[0].shape.Blank? {
      DrainLoopWork(Unshift(Take(s), s.pending[0]), handled);
    }
  }

  lemma DrainLoopTakes(s: Binding, handled: bool)
    requires s.alive && s.pending != []
    ensures Work(DrainLoop(s, handled)) < 4 * |s.pending|
  {
    if s.pending[0].shape.Blank? { DrainLoopWork(Unshift(Take(s), s.pending[0]), handled); }
  }

  /** Each step of a running drain, however the handler settles and whether or not one is registered, brings
      it closer to idle, unless another handler follows. */
  lemma OwnStepAdvances(s: Binding, step: Step)
    requires Consistent(s) && Own(s, step)
    ensures Work(Next(s, step)) + 1 <= Work(s) + if GoesOn(step) then 1 else 0
  {
    hide Booked, Ordered, Audited, Handled, DrainLoop;
    match s.drain
    case Settled => DrainLoopWork(Unshift(s, s.active.value), step.handled);
    case Returned => if s.alive && s.pending != [] { DrainLoopTakes(s.(drain := Idle), step.handled); }
    case _ =>
  }

  lemma OwnStepKeepsAccepted(s: Binding, step: Step)
    requires Consistent(s) && Own(s, step)
    ensures Next(s, step).accepted == s.accepted && Next(s, step).alive == s.alive
  {
    hide Counted, Within, Ordered, Handled, Audited, DrainLoop, Unshift, TotalOf;
    match s.drain
    case Settled =>
      UnshiftIntake(s, s.active.value);
      DrainLoopIntake(Unshift(s, s.active.value), step.handled);
    case Returned => DrainLoopIntake(s.(drain := Idle), step.handled);
    case _ =>
  }

  /** Left to itself, whatever its handlers do, the drain of a live binding can take no more steps than its
      work and the handlers that follow one another allow; and when it can take none, it has taken every
      accepted frame. */
  lemma {:induction false} DrainTakesEverything(s: Binding, steps: seq<Step>)
    requires Consistent(s) && s.alive && OwnRun(s, steps)
    ensures var t := Run(s, steps);
            && Work(t) + |steps| <= Work(s) + Followed(steps)
            && ((forall step :: !Own(t, step)) ==> t.drain == Idle && t.taken == s.accepted && t.pending == [])
    decreases |steps|
  {
    hide Consistent, Next, Own, Work, GoesOn;
    if steps == [] {
      if s.drain == Idle { AtRest(s); } else { SomeOwnStep(s); }
    } else {
      StepConsistent(s, steps[0]);
      OwnStepAdvances(s, steps[0]);
      OwnStepKeepsAccepted(s, steps[0]);
      DrainTakesEverything(Next(s, steps[0]), steps[1..]);
    }
  }

  lemma SomeOwnStep(s: Binding)
    requires s.drain != Idle
    ensures exists step :: Own(s, step)
  {
    assert s.drain.Handling? ==> Own(s, HandlerSettles(Done, false));
    assert s.drain.Settled? ==> Own(s, DrainResumes(true));
    assert s.drain.Returned? ==> Own(s, Finalise(true));
  }

  lemma AtRest(s: Binding)
    requires Consistent(s) && s.alive && s.drain == Idle
    ensures s.taken == s.accepted && s.pending == []
  {
    hide Counted, Within, Ordered, Handled, Audited;
  }

  // ----- Every arriving frame is accounted for --------------------------------------------------

  function OverflowFor(s: Binding, q: Queue): Overflow { match q case Data => s.dataOverflow case Control => s.controlOverflow }

  /** What arrived for one class while the binding lived. */
  function Arrived(s: Binding, steps: seq<Step>, q: Queue): Audit
    decreases |steps|
  {
    if steps == [] then Audit(0, 0)
    else
      var rest := Arrived(Next(s, steps[0]), steps[1..], q);
      if steps[0].Message? && steps[0].queue == q && s.alive then Audit(rest.frames + 1, rest.bytes + steps[0].bytes) else rest
  }

  lemma {:induction false} DrainLoopIntake(s: Binding, handled: bool)
    ensures SameIntake(s, DrainLoop(s, handled))
    decreases |s.pending|
  {
    if s.alive && s.pending != [] && s.pending[0].shape.Blank? { DrainLoopIntake(Unshift(Take(s), s.pending[0]), handled); }
  }

  lemma {:induction false} ReleaseEachIntake(s: Binding, ws: seq<Cell>)
    ensures SameIntake(s, ReleaseEach(s, ws))
    decreases |ws|
  {
    if ws != [] { ReleaseEachIntake(Release(s, ws[0]), ws[1..]); }
  }

  lemma ReceivedConserves(s: Binding, p: Queue, bytes: nat, shape: Shape, handled: bool, q: Queue)
    requires s.alive
    ensures var t := Received(s, p, bytes, shape, handled);
            && UsageOf(t.accepted, q).frames + OverflowFor(t, q).rejected.frames
               == UsageOf(s.accepted, q).frames + OverflowFor(s, q).rejected.frames + (if p == q then 1 else 0)
            && UsageOf(t.accepted, q).bytes + OverflowFor(t, q).rejected.bytes
               == UsageOf(s.accepted, q).bytes + OverflowFor(s, q).rejected.bytes + (if p == q then bytes else 0)
  {
    hide UsageOf, DrainLoop, Admits;
    var w := Cell(|s.accepted|, p, bytes, if p == Control then ControlFrame else shape);
    UsageConcat(s.accepted, [w], q);
    UsageOne(w, q);
    DrainLoopIntake(Enqueue(s, w), handled);
  }

  lemma StepConserves(s: Binding, step: Step, q: Queue)
    ensures var t := Next(s, step);
            var here := step.Message? && step.queue == q && s.alive;
            && UsageOf(t.accepted, q).frames + OverflowFor(t, q).rejected.frames
               == UsageOf(s.accepted, q).frames + OverflowFor(s, q).rejected.frames + (if here then 1 else 0)
            && UsageOf(t.accepted, q).bytes + OverflowFor(t, q).rejected.bytes
               == UsageOf(s.accepted, q).bytes + OverflowFor(s, q).rejected.bytes + (if here then step.bytes else 0)
  {
    hide UsageOf, DrainLoop, Unshift, Enqueue, Admits, ReleaseEach;
    match step
    case Message(p, bytes, shape, handled) => if s.alive { ReceivedConserves(s, p, bytes, shape, handled, q); }
    case DrainResumes(handled) =>
      if s.active.Some? { DrainLoopIntake(Unshift(s, s.active.value), handled); UnshiftIntake(s, s.active.value); }
    case Finalise(handled) => DrainLoopIntake(s.(drain := Idle), handled);
    case Unbind => ReleaseEachIntake(s.(alive := false, pending := []), ActiveCells(s) + s.pending);
    case _ =>
  }

  lemma UnshiftIntake(s: Binding, w: Cell)
    ensures SameIntake(s, Unshift(s, w))
  {
  }

  /** Over any run of a live binding, what was admitted and what the audits and the unaudited remainder report
      as dropped is exactly what arrived. */
  lemma {:induction false} RunConserves(s: Binding, steps: seq<Step>, q: Queue)
    requires Consistent(s)
    ensures var t := Run(s, steps);
            var a, o := Arrived(s, steps, q), OverflowFor(t, q);
            && UsageOf(t.accepted, q).frames + TotalOf(o.audits).frames + o.droppedFrames
               == UsageOf(s.accepted, q).frames + OverflowFor(s, q).rejected.frames + a.frames
            && UsageOf(t.accepted, q).bytes + TotalOf(o.audits).bytes + o.droppedBytes
               == UsageOf(s.accepted, q).bytes + OverflowFor(s, q).rejected.bytes + a.bytes
            && o.droppedFrames < AUDIT_SUMMARY_EVENTS
            && (!t.alive ==> o.droppedFrames == 0 && o.droppedBytes == 0)
    decreases |steps|
  {
    hide Next, UsageOf, Booked, Fifo, Ordered, Awake, TotalOf;
    if steps != [] {
      StepConsistent(s, steps[0]);
      StepConserves(s, steps[0], q);
      RunConserves(Next(s, steps[0]), steps[1..], q);
    }
  }

  // ----- What an arrival and a timer do -----------------------------------------------------------

  /** A frame that fits its class's caps, over the cells then waiting or running, is accepted behind all others;
      any other is counted as rejected, and nothing else is. */
  lemma ArrivalAdmits(s: Binding, q: Queue, bytes: nat, shape: Shape, handled: bool)
    requires Consistent(s) && s.alive
    ensures var live, t := ActiveCells(s) + s.pending, Next(s, Message(q, bytes, shape, handled));
            var fits := UsageOf(live, q).frames + 1 <= MaxFrames(q) && UsageOf(live, q).bytes + bytes <= MaxBytes(q);
            var o, r := OverflowFor(s, q), OverflowFor(t, q);
            && t.accepted == (if fits then s.accepted + [Cell(|s.accepted|, q, bytes, if q == Control then ControlFrame else shape)]
                              else s.accepted)
            && (fits ==> t.dataOverflow == s.dataOverflow && t.controlOverflow == s.controlOverflow)
            && (!fits ==> r.rejected == Audit(o.rejected.frames + 1, o.rejected.bytes + bytes)
                          && t.taken == s.taken && t.log == s.log && t.pending == s.pending)
            && (forall p | p != q :: OverflowFor(t, p) == OverflowFor(s, p))
  {
    AdmissionExact(s, q, bytes);
    hide Consistent, UsageOf, Admits, Received, Record;
    if Admits(s, q, bytes) { Accepts(s, q, bytes, shape, handled); } else { Refuses(s, q, bytes, shape, handled); }
  }

  lemma Accepts(s: Binding, q: Queue, bytes: nat, shape: Shape, handled: bool)
    requires s.alive && Admits(s, q, bytes)
    ensures var t := Received(s, q, bytes, shape, handled);
            && t.accepted == s.accepted + [Cell(|s.accepted|, q, bytes, if q == Control then ControlFrame else shape)]
            && t.dataOverflow == s.dataOverflow && t.controlOverflow == s.controlOverflow
  {
    hide Admits, DrainLoop;
    DrainLoopIntake(Enqueue(s, Cell(|s.accepted|, q, bytes, if q == Control then ControlFrame else shape)), handled);
  }

  lemma Refuses(s: Binding, q: Queue, bytes: nat, shape: Shape, handled: bool)
    requires s.alive && !Admits(s, q, bytes)
    ensures var o, t := OverflowFor(s, q), Received(s, q, bytes, shape, handled);
            && t.accepted == s.accepted && t.taken == s.taken && t.log == s.log && t.pending == s.pending
            && OverflowFor(t, q) == Record(o, bytes)
            && Record(o, bytes).rejected == Audit(o.rejected.frames + 1, o.rejected.bytes + bytes)
            && forall p | p != q :: OverflowFor(t, p) == OverflowFor(s, p)
  {
    hide Admits;
  }

  /** The first drop of a class is audited at once, and so is every one that completes a summary; any other
      waits for a timer. */
  lemma DropsAudited(s: Binding, q: Queue, bytes: nat, shape: Shape, handled: bool)
    requires Consistent(s) && s.alive && Next(s, Message(q, bytes, shape, handled)).accepted == s.accepted
    ensures var o, r := OverflowFor(s, q), OverflowFor(Next(s, Message(q, bytes, shape, handled)), q);
            if o.audits == [] || o.droppedFrames + 1 == AUDIT_SUMMARY_EVENTS
            then r.audits == o.audits + [Audit(o.droppedFrames + 1, o.droppedBytes + bytes)] && r.droppedFrames == 0 && !r.timer
            else r.audits == o.audits && r.droppedFrames == o.droppedFrames + 1 && r.timer
  {
    hide Fifo, Booked, Ordered, Handled, Awake, Audited, Admits, Received, Record;
    if Admits(s, q, bytes) {
      Accepts(s, q, bytes, shape, handled);
    } else {
      Refuses(s, q, bytes, shape, handled);
      RecordMeans(OverflowFor(s, q), bytes);
    }
  }

  lemma RecordMeans(o: Overflow, bytes: nat)
    requires Audited(o, true)
    ensures var r := Record(o, bytes);
            if o.audits == [] || o.droppedFrames + 1 == AUDIT_SUMMARY_EVENTS
            then r.audits == o.audits + [Audit(o.droppedFrames + 1, o.droppedBytes + bytes)] && r.droppedFrames == 0 && !r.timer
            else r.audits == o.audits && r.droppedFrames == o.droppedFrames + 1 && r.timer
  {
    hide TotalOf;
  }

  /** A fired timer audits what has been dropped since, and nothing else is audited by it. */
  lemma TimerAudits(s: Binding, q: Queue)
    requires Consistent(s)
    ensures var o, r := OverflowFor(s, q), OverflowFor(Next(s, TimerFires(q)), q);
            && r.audits == o.audits + (if o.droppedFrames > 0 then [Audit(o.droppedFrames, o.droppedBytes)] else [])
            && r.droppedFrames == 0 && !r.timer
    ensures forall p | p != q :: OverflowFor(Next(s, TimerFires(q)), p) == OverflowFor(s, p)
  {
    hide Fifo, Booked, Ordered, Handled, Awake, TotalOf;
  }

  lemma ActiveWhileHandling(s: Binding)
    requires Consistent(s) && s.drain.Handling?
    ensures s.active.Some?
  {
    hide Fifo, Booked, Ordered, Handled, Audited;
  }

  // ----- The binding ----------------------------------------------------------------------------

  class RelayBinding {
    var state: Binding

    constructor ()
      ensures state == FRESH && Consistent(state)
    {
      hide Consistent;
      FreshConsistent();
      state := FRESH;
    }

    method ReleaseDispatch(work: Cell)
      modifies this
      ensures state == Release(old(state), work)
    {
      if work.id !in state.accounted { return; }
      state := state.(accounted := state.accounted - {work.id}, released := state.released + [work.id]);
      if work.queue == Control {
        state := state.(control := Usage(state.control.frames - 1, state.control.bytes - work.bytes));
      } else {
        state := state.(data := Usage(state.data.frames - 1, state.data.bytes - work.bytes));
      }
    }

    /** `dispatchRelayMessage` and `dispatchRelayControlFrame`, up to their first await. */
    method DispatchWork(work: Cell, handled: bool)
      modifies this
      ensures state == Dispatch(old(state), work, handled)
    {
      match work.shape {
        case Undecodable => { state := state.(drain := Settled); }
        case OtherFrame => {
          state := state.(log := state.log + [Published(work.id)]);
          state := state.(drain := Settled);
        }
        case _ => {
          if handled {
            state := state.(log := state.log + [Started(work.id)]);
            state := state.(drain := Handling(false));
          } else {
            state := state.(log := state.log + [Published(work.id)]);
            state := state.(drain := Settled);
          }
        }
      }
    }

    /** `drainDispatches`, up to its next await. */
    method DrainDispatches(handled: bool)
      modifies this
      ensures state == DrainLoop(old(state), handled)
    {
      hide Dispatch, Release;
      while state.alive && |state.pending| > 0
        invariant DrainLoop(state, handled) == DrainLoop(old(state), handled)
        decreases |state.pending|
      {
        var work := state.pending[0];
        state := state.(pending := state.pending[1..], taken := state.taken + [work]);
        state := state.(active := Some(work));
        if !work.shape.Blank? {
          DispatchWork(work, handled);
          return;
        }
        ReleaseDispatch(work);
        state := state.(active := None);
      }
      state := state.(drain := Returned);
    }

    /** `onMessage`: admission, then one shared queue. */
    method OnMessage(queue: Queue, bytes: nat, shape: Shape, handled: bool)
      requires Consistent(state)
      modifies this
      ensures state == Next(old(state), Message(queue, bytes, shape, handled)) && Consistent(state)
    {
      hide Consistent, DrainLoop, Record;
      ReceivedKeeps(state, queue, bytes, shape, handled);
      if !state.alive { return; }
      match queue {
        case Control => {
          if state.control.frames >= MaxFrames(Control) || bytes > MaxBytes(Control) - state.control.bytes {
            var overflow := RecordOverflow(state.controlOverflow, bytes);
            state := state.(controlOverflow := overflow);
            return;
          }
          state := state.(control := Usage(state.control.frames + 1, state.control.bytes + bytes));
        }
        case Data => {
          if state.data.frames >= MaxFrames(Data) || bytes > MaxBytes(Data) - state.data.bytes {
            var overflow := RecordOverflow(state.dataOverflow, bytes);
            state := state.(dataOverflow := overflow);
            return;
          }
          state := state.(data := Usage(state.data.frames + 1, state.data.bytes + bytes));
        }
      }
      var work := Cell(|state.accepted|, queue, bytes, if queue == Control then ControlFrame else shape);
      state := state.(accepted := state.accepted + [work], accounted := state.accounted + {work.id});
      state := state.(pending := state.pending + [work]);
      EnsureDispatchDrain(handled);
    }

    method EnsureDispatchDrain(handled: bool)
      modifies this
      ensures state == EnsureDrain(old(state), handled)
    {
      hide DrainLoop;
      if state.drain != Idle || !state.alive { return; }
      DrainDispatches(handled);
    }

    method RecordOverflow(o: Overflow, bytes: nat) returns (r: Overflow)
      ensures r == Record(o, bytes)
    {
      r := o.(droppedFrames := o.droppedFrames + 1, droppedBytes := o.droppedBytes + bytes,
              rejected := Audit(o.rejected.frames + 1, o.rejected.bytes + bytes));
      if !r.auditEmitted || r.droppedFrames >= AUDIT_SUMMARY_EVENTS {
        r := FlushOverflow(r);
        return;
      }
      if r.timer { return; }
      r := r.(timer := true);
    }

    method FlushOverflow(o: Overflow) returns (r: Overflow)
      ensures r == Flush(o)
    {
      r := o;
      if r.timer { r := r.(timer := false); }
      if r.droppedFrames == 0 { return; }
      r := r.(droppedFrames := 0, droppedBytes := 0, auditEmitted := true,
              audits := r.audits + [Audit(r.droppedFrames, r.droppedBytes)]);
    }

    /** An awaited handler settles; the dispatch goes on to the next handler or to publication. */
    method HandlerSettled(result: Result, more: bool)
      requires Consistent(state) && state.drain.Handling?
      modifies this
      ensures state == Next(old(state), HandlerSettles(result, more)) && Consistent(state)
    {
      HandlerDoneKeeps(state, result, more);
      ActiveWhileHandling(state);
      hide Consistent;
      var work := state.active.value;
      var control := work.shape.ControlFrame?;
      var consumed := !control && state.drain.consumed;
      if !state.alive { state := state.(drain := Settled); return; }
      if result == Threw {
        state := state.(log := state.log + [if control then Published(work.id) else Failed(work.id)]);
        state := state.(drain := Settled);
        return;
      }
      if !control && result == Consumed {
        consumed := true;
        state := state.(log := state.log + [Claimed(work.id)]);
      }
      if more {
        state := state.(log := state.log + [Started(work.id)]);
        state := state.(drain := Handling(consumed));
        return;
      }
      if !consumed { state := state.(log := state.log + [Published(work.id)]); }
      state := state.(drain := Settled);
    }

    /** The drain loop's await returns: the `finally`, then the rest of the loop. */
    method DrainResumed(handled: bool)
      requires Consistent(state) && state.drain == Settled
      modifies this
      ensures state == Next(old(state), DrainResumes(handled)) && Consistent(state)
    {
      hide DrainLoop;
      ResumedKeeps(state, handled);
      var work := state.active.value;
      ReleaseDispatch(work);
      state := state.(active := None);
      DrainDispatches(handled);
    }

    /** The drain's `finally` continuation. */
    method DrainFinalised(handled: bool)
      requires Consistent(state) && state.drain == Returned
      modifies this
      ensures state == Next(old(state), Finalise(handled)) && Consistent(state)
    {
      hide DrainLoop;
      FinalisedKeeps(state, handled);
      state := state.(drain := Idle);
      if |state.pending| > 0 && state.alive { EnsureDispatchDrain(handled); }
    }

    method TimerFired(queue: Queue)
      requires Consistent(state) && OverflowFor(state, queue).timer
      modifies this
      ensures state == Next(old(state), TimerFires(queue)) && Consistent(state)
    {
      hide Consistent, Flush;
      FiredKeeps(state, queue);
      var overflow := FlushOverflow(OverflowFor(state, queue));
      match queue {
        case Data => { state := state.(dataOverflow := overflow); }
        case Control => { state := state.(controlOverflow := overflow); }
      }
    }

    /** `unbindRelay`: abort, release the active cell and every queued one, emit the last audits. */
    method UnbindRelay()
      requires Consistent(state) && state.alive
      modifies this
      ensures state == Next(old(state), Unbind) && Consistent(state)
    {
      hide Consistent, Release, Flush;
      UnboundKeeps(state);
      ghost var cells := ActiveCells(state) + state.pending;
      state := state.(alive := false);
      var dropped := state.pending;
      state := state.(pending := []);
      ghost var start := state;
      if state.active.Some? {
        assert cells[0] == state.active.value && cells[1..] == dropped;
        ReleaseDispatch(state.active.value);
      } else {
        assert cells == dropped;
      }
      var i := 0;
      assert dropped[0..] == dropped;
      while i < |dropped|
        invariant 0 <= i <= |dropped|
        invariant ReleaseEach(state, dropped[i..]) == ReleaseEach(start, cells)
      {
        assert dropped[i..][0] == dropped[i] && dropped[i..][1..] == dropped[i + 1..];
        ReleaseDispatch(dropped[i]);
        i := i + 1;
      }
      var data := FlushOverflow(state.dataOverflow);
      var control := FlushOverflow(state.controlOverflow);
      state := state.(dataOverflow := data);
      state := state.(controlOverflow := control);
    }
  }
}
