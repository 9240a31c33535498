/** The relay's fixed-window admission budget (relay/src/resource_limits.rs). Time is a
    natural number of ticks read from a monotone clock. */
module FixedWindow {

  const MAX_USIZE: nat := 0xFFFF_FFFF_FFFF_FFFF

  /** One `allow` call: when it ran and what it asked for. */
  datatype Call = Call(now: nat, cost: nat)
  datatype Budget = Budget(started: nat, used: nat, window: nat, limit: nat) {
    ghost predicate Valid() { used <= limit <= MAX_USIZE }
  }

  /** The budget after the lazy rollover at `now`. */
  function RollOver(b: Budget, now: nat): Budget
    requires b.started <= now
  {
    if now - b.started >= b.window then b.(started := now, used := 0) else b
  }

  predicate Accepts(b: Budget, c: Call)
    requires b.started <= c.now
  {
    RollOver(b, c.now).used + c.cost <= b.limit
  }

  function Charge(b: Budget, c: Call): (r: Budget)
    requires b.started <= c.now && b.Valid()
    ensures r.Valid() && r.started <= c.now && r.window == b.window && r.limit == b.limit
  {
    var rolled := RollOver(b, c.now);
    if Accepts(b, c) then rolled.(used := rolled.used + c.cost) else rolled
  }

  class FixedWindowBudget {
    var windowStarted: nat
    var used: nat
    const window: nat
    const limit: nat

    ghost function State(): Budget reads this { Budget(windowStarted, used, window, limit) }

    constructor (window: nat, limit: nat, now: nat)
      requires limit <= MAX_USIZE
      ensures State() == Budget(now, 0, window, limit)
    {
      this.windowStarted, this.used, this.window, this.limit := now, 0, window, limit;
    }

    /** `allow`: `used.checked_add(cost)` fails above the machine word. */
    method Allow(now: nat, cost: nat) returns (ok: bool)
      requires State().Valid() && windowStarted <= now && cost <= MAX_USIZE
      modifies this
      ensures ok == Accepts(old(State()), Call(now, cost))
      ensures State() == Charge(old(State()), Call(now, cost))
    {
      if now - windowStarted >= window {
        windowStarted := now;
        used := 0;
      }
      var next := used + cost;
      if next > MAX_USIZE { return false; }
      if next > limit { return false; }
      used := next;
      return true;
    }
  }

  // ----- Whole runs -------------------------------------------------------------

  ghost predicate Monotone(started: nat, calls: seq<Call>) {
    && (forall i | 0 <= i < |calls| :: started <= calls[i].now)
    && (forall i, j | 0 <= i < j < |calls| :: calls[i].now <= calls[j].now)
  }

  /** Cost accepted by a run in the half-open interval [from, to). */
  function AcceptedIn(b: Budget, calls: seq<Call>, from: int, to: int): nat
    requires b.Valid() && Monotone(b.started, calls)
    decreases |calls|
  {
    if calls == [] then 0
    else
      (if Accepts(b, calls[0]) && from <= calls[0].now < to then calls[0].cost else 0)
      + AcceptedIn(Charge(b, calls[0]), calls[1..], from, to)
  }

  /** Cost accepted in the window that is open when the run begins: before the first rollover. */
  function AcceptedThisWindow(b: Budget, calls: seq<Call>): nat
    requires b.Valid() && Monotone(b.started, calls)
    decreases |calls|
  {
    if calls == [] || calls[0].now - b.started >= b.window then 0
    else
      (if Accepts(b, calls[0]) then calls[0].cost else 0)
      + AcceptedThisWindow(Charge(b, calls[0]), calls[1..])
  }

  /** Within one lazily started window, earlier and further accepted cost never exceed the limit. */
  lemma {:induction false} WindowWithinLimit(b: Budget, calls: seq<Call>)
    requires b.Valid() && Monotone(b.started, calls)
    ensures b.used + AcceptedThisWindow(b, calls) <= b.limit
    decreases |calls|
  {
    if calls != [] && calls[0].now - b.started < b.window {
      WindowWithinLimit(Charge(b, calls[0]), calls[1..]);
    }
  }

  /** A run that begins at or after `to` accepts nothing before it. */
  lemma {:induction false} NothingBefore(b: Budget, calls: seq<Call>, from: int, to: int)
    requires b.Valid() && Monotone(b.started, calls) && to <= b.started
    ensures AcceptedIn(b, calls, from, to) == 0
    decreases |calls|
  {
    if calls != [] { NothingBefore(Charge(b, calls[0]), calls[1..], from, to); }
  }

  /** If the open window started at or after `from`, the interval [from, from + window) sees no rollover. */
  lemma {:induction false} TailWithinLimit(b: Budget, calls: seq<Call>, from: int)
    requires b.Valid() && Monotone(b.started, calls) && from <= b.started
    ensures b.used + AcceptedIn(b, calls, from, from + b.window) <= b.limit
    decreases |calls|
  {
    if calls != [] {
      var next := Charge(b, calls[0]);
      if calls[0].now - b.started >= b.window {
        NothingBefore(next, calls[1..], from, from + b.window);
      } else {
        TailWithinLimit(next, calls[1..], from);
      }
    }
  }

  /** Inside the interval: what the open window has used and what is still accepted fit two budgets. */
  lemma {:induction false} InsideInterval(b: Budget, calls: seq<Call>, from: int)
    requires b.Valid() && Monotone(b.started, calls)
    requires forall i | 0 <= i < |calls| :: from <= calls[i].now
    ensures b.used + AcceptedIn(b, calls, from, from + b.window) <= 2 * b.limit
    decreases |calls|
  {
    if calls != [] {
      var next := Charge(b, calls[0]);
      if calls[0].now - b.started >= b.window {
        TailWithinLimit(next, calls[1..], from);
      } else {
        InsideInterval(next, calls[1..], from);
      }
    }
  }

  /** Cost accepted in any half-open interval of one window's length is at most twice the limit. */
  lemma {:induction false} TwiceTheLimit(b: Budget, calls: seq<Call>, from: int)
    requires b.Valid() && Monotone(b.started, calls)
    ensures AcceptedIn(b, calls, from, from + b.window) <= 2 * b.limit
    decreases |calls|
  {
    if calls != [] {
      if from <= calls[0].now {
        InsideInterval(b, calls, from);
      } else {
        TwiceTheLimit(Charge(b, calls[0]), calls[1..], from);
      }
    }
  }

  /** The budget after a run. */
  function After(b: Budget, calls: seq<Call>): Budget
    requires b.Valid() && Monotone(b.started, calls)
    decreases |calls|
  {
    if calls == [] then b else After(Charge(b, calls[0]), calls[1..])
  }

  /** What a budget has used since its window started was accepted since then, or before the run. */
  lemma {:induction false} UsedWasAccepted(b: Budget, calls: seq<Call>, to: int)
    requires b.Valid() && Monotone(b.started, calls) && b.started < to && forall i | 0 <= i < |calls| :: calls[i].now < to
    ensures var e := After(b, calls);
            && e.limit == b.limit && e.window == b.window && b.started <= e.started < to && e.Valid()
            && e.used <= (if e.started == b.started then b.used else 0) + AcceptedIn(b, calls, e.started, to)
    decreases |calls|
  {
    if calls != [] {
      var next := Charge(b, calls[0]);
      UsedWasAccepted(next, calls[1..], to);
    }
  }

  /** Cost accepted in a longer interval is no less. */
  lemma {:induction false} AcceptedMore(b: Budget, calls: seq<Call>, from: int, earlier: int, to: int)
    requires b.Valid() && Monotone(b.started, calls) && earlier <= from
    ensures AcceptedIn(b, calls, from, to) <= AcceptedIn(b, calls, earlier, to)
    decreases |calls|
  {
    if calls != [] { AcceptedMore(Charge(b, calls[0]), calls[1..], from, earlier, to); }
  }

  /** A call is refused only for what was accepted during the last window's length: its own cost and that exceed the
      limit. So nothing is refused that would have stayed within the limit over every window. */
  lemma RefusedOnlyWhenBusy(window: nat, limit: nat, start: nat, calls: seq<Call>, c: Call)
    requires limit <= MAX_USIZE && Monotone(start, calls) && Monotone(start, calls + [c])
    ensures var b := Budget(start, 0, window, limit);
            After(b, calls).started <= c.now
            && (!Accepts(After(b, calls), c) ==> AcceptedIn(b, calls, c.now - window + 1, c.now + 1) + c.cost > limit)
  {
    var b := Budget(start, 0, window, limit);
    assert (calls + [c])[|calls|] == c;
    forall i | 0 <= i < |calls| ensures calls[i].now < c.now + 1 {
      assert (calls + [c])[i] == calls[i];
    }
    UsedWasAccepted(b, calls, c.now + 1);
    var e := After(b, calls);
    if c.now - e.started < e.window { AcceptedMore(b, calls, e.started, c.now - window + 1, c.now + 1); }
  }

  /** The bound is reached: a full budget just before a rollover and another just after it. */
  lemma TwiceTheLimitIsTight(window: nat, limit: nat)
    requires window >= 2 && limit <= MAX_USIZE
    ensures var calls := [Call(window - 1, limit), Call(window, limit)];
            var b := Budget(0, 0, window, limit);
            AcceptedIn(b, calls, 1, 1 + window) == 2 * limit
  {
    var calls := [Call(window - 1, limit), Call(window, limit)];
    var b := Budget(0, 0, window, limit);
    assert calls[1..] == [Call(window, limit)] && calls[1..][1..] == [];
    var c := Charge(b, calls[0]);
    assert AcceptedIn(c, calls[1..], 1, 1 + window) == limit + AcceptedIn(Charge(c, calls[1..][0]), [], 1, 1 + window);
  }
}
