/** One frame's dispatch, on its own (pi-extension/src/extension/relay_transport.ts, `dispatchRelayMessage` and
    `dispatchRelayControlFrame`): what is done with it depends on what it is, on whether a handler was
    registered, and on how its handlers settled one after another. The queue is proved to do exactly that with
    every frame it takes. */
module RelayFrames {
  import opened Prelude
  import opened RelayDispatch

  /** A handler settled, and whether another handler followed it in the list. */
  datatype Report = Report(result: Result, more: bool)

  /** Frames that are shown to handlers. */
  predicate Shown(w: Cell) { w.shape.ControlFrame? || w.shape.OuterFrame? }

  /** What happens as soon as the frame is taken. */
  function Opening(w: Cell, handled: bool): seq<Effect> {
    if w.shape.Blank? || w.shape.Undecodable? then []
    else if Shown(w) && handled then [Started(w.id)]
    else [Published(w.id)]
  }

  /** What happens when a handler settles; `claimed` says whether one before it claimed the frame. */
  function Reply(w: Cell, claimed: bool, r: Report): seq<Effect> {
    var control := w.shape.ControlFrame?;
    if r.result == Threw then [if control then Published(w.id) else Failed(w.id)]
    else
      var claims := !control && r.result == Consumed;
      (if claims then [Claimed(w.id)] else [])
      + if r.more then [Started(w.id)] else if claimed || claims then [] else [Published(w.id)]
  }

  predicate Claims(w: Cell, rs: seq<Report>) {
    w.shape.OuterFrame? && exists i :: 0 <= i < |rs| && rs[i].result == Consumed
  }

  /** Everything that happens for the frame, given how its handlers settled so far. */
  function Story(w: Cell, handled: bool, rs: seq<Report>): seq<Effect> {
    if rs == [] then Opening(w, handled)
    else Story(w, handled, rs[..|rs| - 1]) + Reply(w, Claims(w, rs[..|rs| - 1]), rs[|rs| - 1])
  }

  /** The frame still awaits a handler. */
  predicate Awaits(w: Cell, handled: bool, rs: seq<Report>) {
    Shown(w) && handled && forall i | 0 <= i < |rs| :: rs[i].more && rs[i].result != Threw
  }

  // ----- What a run records ----------------------------------------------------------------

  function At(steps: seq<Step>): Binding { Run(FRESH, steps) }

  function HandlerKnown(step: Step): bool {
    match step
    case Message(_, _, _, handled) => handled
    case DrainResumes(handled) => handled
    case Finalise(handled) => handled
    case _ => false
  }

  /** Whether a handler was registered when the frame was taken. */
  function HandledAt(steps: seq<Step>, id: nat): bool {
    if steps == [] then false
    else
      var init := steps[..|steps| - 1];
      if |At(init).taken| <= id then HandlerKnown(steps[|steps| - 1]) else HandledAt(init, id)
  }

  /** The frame's handler that is being awaited. */
  predicate Awaited(s: Binding, id: nat) { s.drain.Handling? && s.active.Some? && s.active.value.id == id }

  /** How the frame's handlers settled. */
  function Reports(steps: seq<Step>, id: nat): seq<Report> {
    if steps == [] then []
    else
      var init, last := steps[..|steps| - 1], steps[|steps| - 1];
      Reports(init, id) + if last.HandlerSettles? && Awaited(At(init), id) then [Report(last.result, last.more)] else []
  }

  /** What the log says about one frame. */
  function EffectsOn(log: seq<Effect>, id: nat): seq<Effect> {
    if log == [] then []
    else EffectsOn(log[..|log| - 1], id) + if log[|log| - 1].id == id then [log[|log| - 1]] else []
  }

  lemma EffectsOnMore(log: seq<Effect>, e: Effect, id: nat)
    ensures EffectsOn(log + [e], id) == EffectsOn(log, id) + if e.id == id then [e] else []
  {
    assert (log + [e])[..|log|] == log;
  }

  // ----- The queue, step by step -------------------------------------------------------------

  /** Taking a frame opens its dispatch. */
  lemma DispatchOpens(s: Binding, w: Cell, handled: bool, id: nat)
    requires !w.shape.Blank?
    ensures var t := Dispatch(s, w, handled);
            && EffectsOn(t.log, id) == EffectsOn(s.log, id) + (if id == w.id then Opening(w, handled) else [])
            && t.drain == (if Shown(w) && handled then Handling(false) else Settled) && t.active == s.active && t.taken == s.taken
  {
    hide EffectsOn;
    EffectsOnMore(s.log, Started(w.id), id);
    EffectsOnMore(s.log, Published(w.id), id);
    assert EffectsOn(s.log, id) + [] == EffectsOn(s.log, id);
  }

  /** The drain opens each frame it takes, and nothing else. */
  lemma {:induction false} DrainOpens(s: Binding, handled: bool, id: nat)
    requires Between(s)
    ensures var t := DrainLoop(s, handled);
            && s.taken <= t.taken
            && EffectsOn(t.log, id) == EffectsOn(s.log, id)
                 + (if |s.taken| <= id < |t.taken| then Opening(t.taken[id], handled) else [])
            && (Awaited(t, id) <==> |s.taken| <= id < |t.taken| && Shown(t.taken[id]) && handled)
            && (t.drain.Handling? ==> !t.drain.consumed)
    decreases |s.pending|
  {
    hide Ordered, Handled, Audited, Booked, EffectsOn, Unshift;
    assert EffectsOn(s.log, id) + [] == EffectsOn(s.log, id);
    if s.alive && s.pending != [] {
      var w, t := s.pending[0], Take(s);
      TakeKeeps(s);
      assert w.id == |s.taken| && t.taken == s.taken + [w] && t.log == s.log;
      if w.shape.Blank? {
        BlankBetween(s);
        UnshiftKeeps(t);
        DrainOpens(Unshift(t, w), handled, id);
      } else {
        DispatchOpens(t, w, handled, id);
      }
    }
  }

  /** A blank line leaves the drain between two frames. */
  lemma BlankBetween(s: Binding)
    requires Between(s) && s.alive && s.pending != [] && s.pending[0].shape.Blank?
    ensures Between(Unshift(Take(s), s.pending[0]))
  {
    hide Fifo, Booked, Ordered, Handled, Audited, Unshift;
    var t := Take(s);
    TakeKeeps(s);
    UnshiftKeeps(t);
    OrderedWeaken(s.log, |s.taken|, false, false);
    OrderedWeaken(s.log, |s.taken| + 1, true, false);
    HandledTaken(s.taken, s.log, s.pending[0], Returned);
    HandledDone(t.taken, t.log, Handling(false));
    HandledQuiet(true, t.taken, t.log, Settled, Returned);
  }

  /** A settling handler of the active frame is answered as that frame alone requires. */
  lemma HandlerReplies(s: Binding, result: Result, more: bool, id: nat)
    requires Consistent(s) && s.alive && s.drain.Handling?
    ensures s.active.Some?
    ensures var w, t := s.active.value, HandlerDone(s, result, more);
            && EffectsOn(t.log, id) == EffectsOn(s.log, id) + (if id == w.id then Reply(w, s.drain.consumed, Report(result, more)) else [])
            && t.active == s.active && t.taken == s.taken
            && t.drain == (if more && result != Threw
                           then Handling(w.shape.OuterFrame? && (s.drain.consumed || result == Consumed)) else Settled)
  {
    ActiveIsOffered(s);
    hide Consistent, EffectsOn, HandlerDone, Reply, Offered;
    var w, r := s.active.value, Report(result, more);
    HandlerLog(s, result, more);
    ReplyIsOwn(w, s.drain.consumed, r);
    EffectsOnOwn(s.log, Reply(w, s.drain.consumed, r), w.id, id);
  }

  lemma HandlerLog(s: Binding, result: Result, more: bool)
    requires s.alive && s.drain.Handling? && s.active.Some? && Offered(s.active.value, s.drain.consumed)
    ensures var w, t := s.active.value, HandlerDone(s, result, more);
            && t.log == s.log + Reply(w, s.drain.consumed, Report(result, more)) && t.active == s.active && t.taken == s.taken
            && t.drain == (if more && result != Threw
                           then Handling(w.shape.OuterFrame? && (s.drain.consumed || result == Consumed)) else Settled)
  {
    var w, log := s.active.value, s.log;
    ConcatAssociates(log, [Claimed(w.id)], [Started(w.id)]);
    assert [] + [Started(w.id)] == [Started(w.id)] && [] + [Published(w.id)] == [Published(w.id)];
    assert [Claimed(w.id)] + [] == [Claimed(w.id)];
  }

  lemma ReplyIsOwn(w: Cell, claimed: bool, r: Report)
    ensures forall i | 0 <= i < |Reply(w, claimed, r)| :: Reply(w, claimed, r)[i].id == w.id
  {
  }

  lemma {:induction false} EffectsOnOwn(log: seq<Effect>, es: seq<Effect>, own: nat, id: nat)
    requires forall i | 0 <= i < |es| :: es[i].id == own
    ensures EffectsOn(log + es, id) == EffectsOn(log, id) + if id == own then es else []
  {
    if es == [] {
      assert log + es == log && EffectsOn(log, id) + [] == EffectsOn(log, id);
    } else {
      var init, e := es[..|es| - 1], es[|es| - 1];
      EffectsOnOwn(log, init, own, id);
      assert log + es == (log + init) + [e] && es == init + [e];
      EffectsOnMore(log + init, e, id);
    }
  }

  lemma ActiveIsOffered(s: Binding)
    requires Consistent(s) && s.drain.Handling?
    ensures s.active.Some? && Offered(s.active.value, s.drain.consumed)
  {
    hide Fifo, Booked, Ordered, Handled, Audited;
  }

  // ----- Each step, seen from one frame -----------------------------------------------------------

  /** Nothing happens for the frame. */
  ghost predicate Unmoved(s: Binding, t: Binding, id: nat) {
    && EffectsOn(t.log, id) == EffectsOn(s.log, id)
    && (Awaited(t, id) <==> Awaited(s, id)) && (Awaited(t, id) ==> t.drain.consumed == s.drain.consumed)
  }

  /** The frame is taken. */
  ghost predicate Opened(s: Binding, t: Binding, handled: bool, id: nat) {
    && |s.taken| <= id < |t.taken|
    && EffectsOn(t.log, id) == EffectsOn(s.log, id) + Opening(t.taken[id], handled)
    && (Awaited(t, id) <==> Shown(t.taken[id]) && handled) && (Awaited(t, id) ==> !t.drain.consumed)
  }

  /** The frame's handler settles. */
  ghost predicate Answered(s: Binding, t: Binding, r: Report, id: nat) {
    && s.active.Some? && s.active.value.id == id && s.drain.Handling?
    && var w := s.active.value;
       && EffectsOn(t.log, id) == EffectsOn(s.log, id) + Reply(w, s.drain.consumed, r)
       && (Awaited(t, id) <==> r.more && r.result != Threw)
       && (Awaited(t, id) ==> t.drain.consumed == (w.shape.OuterFrame? && (s.drain.consumed || r.result == Consumed)))
  }

  /** What a step is to a frame, on a binding that stays alive. */
  ghost predicate Moved(s: Binding, t: Binding, step: Step, id: nat) {
    && s.taken <= t.taken
    && if step.HandlerSettles? && Awaited(s, id) then Answered(s, t, Report(step.result, step.more), id)
       else if |s.taken| <= id < |t.taken| then Opened(s, t, HandlerKnown(step), id)
       else Unmoved(s, t, id)
  }

  lemma DrainMoves(b: Binding, s: Binding, step: Step, id: nat)
    requires Between(b) && b.log == s.log && b.taken == s.taken && !s.drain.Handling? && !step.HandlerSettles?
    ensures Moved(s, DrainLoop(b, HandlerKnown(step)), step, id)
  {
    hide Between, EffectsOn, DrainLoop;
    DrainOpens(b, HandlerKnown(step), id);
    assert EffectsOn(s.log, id) + [] == EffectsOn(s.log, id);
  }

  lemma Stays(s: Binding, t: Binding, step: Step, id: nat)
    requires t.log == s.log && t.taken == s.taken && t.drain == s.drain && t.active == s.active
    requires !(step.HandlerSettles? && Awaited(s, id))
    ensures Moved(s, t, step, id)
  {
    hide EffectsOn;
  }

  lemma ReceivedMoves(s: Binding, step: Step, id: nat)
    requires Consistent(s) && s.alive && step.Message?
    ensures Moved(s, Next(s, step), step, id)
  {
    var q, bytes := step.queue, step.bytes;
    hide Fifo, Booked, Ordered, Handled, Audited, Admits, DrainLoop, Enqueue, Moved;
    if Admits(s, q, bytes) {
      var w := Cell(|s.accepted|, q, bytes, if q == Control then ControlFrame else step.shape);
      EnqueueKeeps(s, w);
      if s.drain == Idle {
        OrderedWeaken(s.log, |s.taken|, false, false);
        HandledQuiet(s.alive, s.taken, s.log, Idle, Returned);
        DrainMoves(Enqueue(s, w), s, step, id);
      } else {
        Stays(s, Enqueue(s, w), step, id);
      }
    } else {
      Stays(s, Next(s, step), step, id);
    }
  }

  lemma HandlerMoves(s: Binding, step: Step, id: nat)
    requires Consistent(s) && s.alive && step.HandlerSettles?
    ensures Moved(s, Next(s, step), step, id)
  {
    hide Consistent, EffectsOn, HandlerDone, Reply;
    if s.drain.Handling? {
      HandlerReplies(s, step.result, step.more, id);
      assert EffectsOn(s.log, id) + [] == EffectsOn(s.log, id);
    } else {
      HandlerIdle(s, step.result, step.more);
      Stays(s, Next(s, step), step, id);
    }
  }

  lemma HandlerIdle(s: Binding, result: Result, more: bool)
    requires !s.drain.Handling?
    ensures HandlerDone(s, result, more) == s
  {
  }

  lemma ResumedMoves(s: Binding, step: Step, id: nat)
    requires Consistent(s) && s.alive && (step.DrainResumes? || step.Finalise?)
    ensures Moved(s, Next(s, step), step, id)
  {
    hide Counted, Within, Ordered, Handled, Audited, Unshift, DrainLoop, Moved;
    OrderedWeaken(s.log, |s.taken|, s.drain.Handling?, ClaimedSoFar(s.drain));
    if step.DrainResumes? && s.drain == Settled {
      UnshiftKeeps(s);
      HandledQuiet(s.alive, s.taken, s.log, Settled, Returned);
      DrainMoves(Unshift(s, s.active.value), s, step, id);
    } else if step.Finalise? && s.drain == Returned && s.pending != [] {
      DrainMoves(s.(drain := Idle), s, step, id);
    } else if step.Finalise? && s.drain == Returned {
      RestMoves(s, step, id);
    } else {
      Stays(s, s, step, id);
    }
  }

  lemma RestMoves(s: Binding, step: Step, id: nat)
    requires s.drain == Returned && step.Finalise?
    ensures Moved(s, s.(drain := Idle), step, id)
  {
    hide EffectsOn;
  }

  /** Every step does to every frame what that frame's own dispatch requires. */
  lemma StepMoves(s: Binding, step: Step, id: nat)
    requires Consistent(s) && Next(s, step).alive
    ensures s.alive && Moved(s, Next(s, step), step, id)
  {
    hide Consistent, Moved, DrainLoop, Unshift, ReleaseEach, Flush, Admits, Record, Received, HandlerDone, Resumed, Finalised;
    StaysAlive(s, step);
    match step
    case Message(_, _, _, _) => ReceivedMoves(s, step, id);
    case HandlerSettles(_, _) => HandlerMoves(s, step, id);
    case DrainResumes(_) => ResumedMoves(s, step, id);
    case Finalise(_) => ResumedMoves(s, step, id);
    case TimerFires(q) => Stays(s, Next(s, step), step, id);
    case Unbind =>
  }

  /** A binding is never revived, and unbinding ends it. */
  lemma StaysAlive(s: Binding, step: Step)
    requires Next(s, step).alive
    ensures s.alive && step != Unbind
  {
    hide Next;
    if !s.alive || step == Unbind { StepQuiet(s, step); }
  }

  // ----- Whole runs ----------------------------------------------------------------------------

  lemma {:induction false} RunLast(s: Binding, steps: seq<Step>)
    requires steps != []
    ensures Run(s, steps) == Next(Run(s, steps[..|steps| - 1]), steps[|steps| - 1])
    decreases |steps|
  {
    hide Next;
    var init := steps[..|steps| - 1];
    if |steps| == 1 {
      assert init == [] && steps[1..] == [];
    } else {
      RunLast(Next(s, steps[0]), steps[1..]);
      assert steps[1..][..|steps| - 2] == init[1..] && init[0] == steps[0];
    }
  }

  /** What the log says about a frame taken is its story, and it is awaited exactly when the story says so. */
  ghost predicate ToldAs(s: Binding, w: Cell, handled: bool, rs: seq<Report>) {
    && EffectsOn(s.log, w.id) == Story(w, handled, rs)
    && (Awaited(s, w.id) <==> Awaits(w, handled, rs))
    && (Awaited(s, w.id) ==> s.drain.consumed == Claims(w, rs))
  }

  ghost predicate Told(steps: seq<Step>, id: nat) {
    var s := At(steps);
    if id >= |s.taken| then Reports(steps, id) == []
    else ToldAs(s, s.taken[id], HandledAt(steps, id), Reports(steps, id))
  }

  /** A story goes on. */
  lemma StepTold(s: Binding, t: Binding, step: Step, w: Cell, handled: bool, rs: seq<Report>)
    requires Moved(s, t, step, w.id) && w.id < |s.taken| && s.taken[w.id] == w
    requires ToldAs(s, w, handled, rs) && (Awaited(s, w.id) ==> s.active.value == w)
    ensures ToldAs(t, w, handled, rs + if step.HandlerSettles? && Awaited(s, w.id) then [Report(step.result, step.more)] else [])
  {
    hide EffectsOn, Story, Awaits, Claims, Reply;
    if step.HandlerSettles? && Awaited(s, w.id) {
      ReplyTold(w, handled, rs, Report(step.result, step.more));
    } else {
      assert rs + [] == rs;
    }
  }

  /** A story begins. */
  lemma StepOpens(s: Binding, t: Binding, step: Step, w: Cell)
    requires Moved(s, t, step, w.id) && |s.taken| <= w.id < |t.taken| && t.taken[w.id] == w
    requires EffectsOn(s.log, w.id) == [] && !Awaited(s, w.id)
    ensures ToldAs(t, w, HandlerKnown(step), [])
  {
    hide EffectsOn, Story, Awaits, Claims;
    OpeningTold(w, HandlerKnown(step));
  }

  lemma NotYetTaken(s: Binding, id: nat)
    requires Consistent(s) && id >= |s.taken|
    ensures EffectsOn(s.log, id) == [] && !Awaited(s, id)
  {
    hide Booked, Audited, Handled, Awake;
    NoneAbove(s.log, |s.taken|, id);
    if s.active.Some? { assert s.taken[|s.taken| - 1].id == |s.taken| - 1; }
  }

  lemma {:induction false} NoneAbove(log: seq<Effect>, n: nat, id: nat)
    requires id >= n && forall i | 0 <= i < |log| :: log[i].id < n
    ensures EffectsOn(log, id) == []
  {
    if log != [] { NoneAbove(log[..|log| - 1], n, id); }
  }

  lemma TakenIds(s: Binding, id: nat)
    requires Consistent(s) && id < |s.taken|
    ensures s.taken[id].id == id
    ensures Awaited(s, id) ==> s.active.value == s.taken[id]
  {
    hide Booked, Ordered, Handled, Audited, Awake;
  }

  /** Over every run of a live binding, each frame taken has been dispatched exactly as it requires by itself:
      shown to its handlers one after another if there are any, published unless claimed or failed. */
  lemma {:induction false} FrameDispatched(steps: seq<Step>, id: nat)
    requires At(steps).alive
    ensures Told(steps, id)
    decreases |steps|
  {
    hide Consistent, Next, Run, ToldAs, Moved, Reports, HandledAt, At, Awaited, Told;
    if steps == [] {
      FreshTold(id);
    } else {
      var init, last := steps[..|steps| - 1], steps[|steps| - 1];
      assert steps == init + [last];
      var s := At(init);
      RunsOn(init, last);
      StepMoves(s, last, id);
      FrameDispatched(init, id);
      ToldOn(init, last, id);
    }
  }

  lemma RunsOn(init: seq<Step>, last: Step)
    ensures Consistent(At(init)) && Consistent(At(init + [last])) && At(init + [last]) == Next(At(init), last)
  {
    hide Consistent, Next, Run;
    FreshConsistent();
    RunConsistent(FRESH, init);
    RunConsistent(FRESH, init + [last]);
    RunLast(FRESH, init + [last]);
    assert (init + [last])[..|init|] == init;
  }

  lemma RecordsOn(init: seq<Step>, last: Step, id: nat)
    ensures Reports(init + [last], id)
            == Reports(init, id) + if last.HandlerSettles? && Awaited(At(init), id) then [Report(last.result, last.more)] else []
    ensures HandledAt(init + [last], id) == if |At(init).taken| <= id then HandlerKnown(last) else HandledAt(init, id)
  {
    hide At;
    assert (init + [last])[..|init|] == init;
  }

  lemma ToldOn(init: seq<Step>, last: Step, id: nat)
    requires Told(init, id) && Moved(At(init), At(init + [last]), last, id)
    ensures Told(init + [last], id)
  {
    var s, t := At(init), At(init + [last]);
    RunsOn(init, last);
    RecordsOn(init, last, id);
    hide Consistent, ToldAs, Moved, Reports, HandledAt, At;
    MovedTaken(s, t, last, id);
    if id >= |s.taken| {
      NotYetTaken(s, id);
      if id < |t.taken| {
        TakenIds(t, id);
        StepOpens(s, t, last, t.taken[id]);
      }
    } else {
      TakenIds(s, id);
      StepTold(s, t, last, s.taken[id], HandledAt(init, id), Reports(init, id));
    }
  }

  lemma MovedTaken(s: Binding, t: Binding, step: Step, id: nat)
    requires Moved(s, t, step, id)
    ensures s.taken <= t.taken
  {
  }

  lemma FreshTold(id: nat)
    ensures Told([], id)
  {
  }

  lemma OpeningTold(w: Cell, handled: bool)
    ensures [] + Opening(w, handled) == Story(w, handled, [])
    ensures (Awaits(w, handled, []) <==> Shown(w) && handled) && !Claims(w, [])
  {
  }

  lemma ReplyTold(w: Cell, handled: bool, rs: seq<Report>, r: Report)
    requires Awaits(w, handled, rs)
    ensures Story(w, handled, rs + [r]) == Story(w, handled, rs) + Reply(w, Claims(w, rs), r)
    ensures Awaits(w, handled, rs + [r]) <==> r.more && r.result != Threw
    ensures Claims(w, rs + [r]) == (w.shape.OuterFrame? && (Claims(w, rs) || r.result == Consumed))
  {
    var all := rs + [r];
    assert all[..|all| - 1] == rs && all[|all| - 1] == r;
    assert forall i | 0 <= i < |rs| :: all[i] == rs[i];
  }

  // ----- What a story amounts to --------------------------------------------------------------------

  function CountStarts(es: seq<Effect>): nat {
    if es == [] then 0 else CountStarts(es[..|es| - 1]) + if es[|es| - 1].Started? then 1 else 0
  }

  function Continued(rs: seq<Report>): nat {
    if rs == [] then 0 else Continued(rs[..|rs| - 1]) + if rs[|rs| - 1].more && rs[|rs| - 1].result != Threw then 1 else 0
  }

  lemma StartsMore(es: seq<Effect>, more: seq<Effect>)
    requires |more| <= 2
    ensures CountStarts(es + more) == CountStarts(es) + (if |more| > 0 && more[0].Started? then 1 else 0)
                                      + if |more| > 1 && more[1].Started? then 1 else 0
  {
    if |more| == 0 {
      assert es + more == es;
    } else if |more| == 1 {
      assert (es + more)[..|es|] == es;
    } else {
      assert (es + more)[..|es| + 1] == es + more[..1] && (es + more[..1])[..|es|] == es;
    }
  }

  /** A frame shown to handlers is shown to one, and to one more for each that was followed; any other frame, or
      one taken without handlers, to none. */
  lemma {:induction false} ShownToEach(w: Cell, handled: bool, rs: seq<Report>)
    requires rs == [] || Awaits(w, handled, rs[..|rs| - 1])
    ensures CountStarts(Story(w, handled, rs)) == if Shown(w) && handled then 1 + Continued(rs) else 0
  {
    hide CountStarts, Claims;
    if rs == [] {
      assert [] + Opening(w, handled) == Opening(w, handled);
      StartsMore([], Opening(w, handled));
      NoStarts();
    } else {
      var init := rs[..|rs| - 1];
      if init != [] { assert forall i | 0 <= i < |init| - 1 :: init[..|init| - 1][i] == init[i]; }
      ShownToEach(w, handled, init);
      StartsMore(Story(w, handled, init), Reply(w, Claims(w, init), rs[|rs| - 1]));
    }
  }

  lemma NoStarts()
    ensures CountStarts([]) == 0
  {
  }

  /** Once no handler is awaited, the last thing done for a shown frame is right: a control frame was published;
      an outer one failed if its last handler threw, was published if none claimed it, and else was not. */
  lemma StoryEnds(w: Cell, rs: seq<Report>)
    requires Shown(w) && rs != [] && Awaits(w, true, rs[..|rs| - 1]) && !Awaits(w, true, rs)
    ensures var last, story := rs[|rs| - 1], Story(w, true, rs);
            && story != []
            && if last.result == Threw then story[|story| - 1] == (if w.shape.ControlFrame? then Published(w.id) else Failed(w.id))
               else if Claims(w, rs) then Published(w.id) !in Reply(w, Claims(w, rs[..|rs| - 1]), last)
               else story[|story| - 1] == Published(w.id)
  {
    var init := rs[..|rs| - 1];
    ReplyTold(w, true, init, rs[|rs| - 1]);
    assert init + [rs[|rs| - 1]] == rs;
    StoryOpens(w, init);
  }

  lemma {:induction false} StoryOpens(w: Cell, rs: seq<Report>)
    requires Shown(w)
    ensures Story(w, true, rs) != []
  {
    if rs != [] { StoryOpens(w, rs[..|rs| - 1]); }
  }
}
