/** Process-wide ownership of the phone-facing runtime (pi-extension/src/extension/runtime_coordinator.ts).

    `Protocol` says who may own by naming the one candidate in the state; the class below decides from its
    lease table, as the source does, and is proved to agree with it. */
module RuntimeCoordinator {
  import opened Prelude

  type Session = string

  datatype Reason = Startup | Reload | New | Resume | Fork | Quit
  datatype Disposition = Candidate | Satellite | Owner
  datatype Phase<L> =
    | Unowned
    | Offered(candidate: L)
    | Active(owner: L, session: Session)
    | Replacing(previous: L, reason: Reason, successor: Option<L>)
    | Disposed
  datatype Activation = Activated | Duplicate | DeniedChild | DeniedSatellite | DeniedDisposed

  /** The coordinator's whole state. */
  datatype State<L> = State(phase: Phase<L>, leases: map<L, Disposition>, children: set<Session>)

  // ----- The protocol -----------------------------------------------------------

  /** The one lease that may become owner next. */
  function Named<L>(p: Phase<L>): Option<L> {
    match p
    case Offered(c) => Some(c)
    case Replacing(_, _, s) => s
    case _ => None
  }

  predicate Owns<L(==)>(p: Phase<L>, l: L) { p.Active? && p.owner == l }

  /** The leases marked candidate are exactly the one named in the state, and a live owner is marked owner. */
  ghost predicate Consistent<L>(s: State<L>) {
    && (forall l | l in s.leases :: s.leases[l] == Candidate <==> Named(s.phase) == Some(l))
    && (Named(s.phase).Some? ==> Named(s.phase).value in s.leases)
    && (s.phase.Active? ==> s.phase.owner in s.leases && s.leases[s.phase.owner] == Owner)
  }

  datatype Event<L> =
    | Acquire(lease: L)
    | ChildCreated(session: Session)
    | ChildDisposed(session: Session)
    | Activate(lease: L, session: Session)
    | Shutdown(lease: L, reason: Reason)

  /** The phase without its candidate. */
  function Withdrawn<L>(p: Phase<L>): Phase<L> {
    match p
    case Offered(_) => Unowned
    case Replacing(o, r, _) => Replacing(o, r, None)
    case _ => p
  }

  function Reply<L(==)>(s: State<L>, l: L, session: Session): Activation {
    if s.phase.Disposed? then DeniedDisposed
    else if Owns(s.phase, l) && s.phase.session == session then Duplicate
    else if session in s.children then DeniedChild
    else if Owns(s.phase, l) || Named(s.phase) == Some(l) then Activated
    else DeniedSatellite
  }

  function Next<L(==)>(s: State<L>, e: Event<L>): State<L> {
    match e
    case Acquire(l) =>
      (match s.phase
       case Unowned => s.(phase := Offered(l), leases := s.leases[l := Candidate])
       case Replacing(o, r, None) => s.(phase := Replacing(o, r, Some(l)), leases := s.leases[l := Candidate])
       case _ => s.(leases := s.leases[l := Satellite]))
    case ChildCreated(id) => if id == "" then s else s.(children := s.children + {id})
    case ChildDisposed(id) => if id == "" then s else s.(children := s.children - {id})
    case Activate(l, session) =>
      (match Reply(s, l, session)
       case Activated => s.(phase := Active(l, session), leases := s.leases[l := Owner])
       case DeniedChild =>
         if Owns(s.phase, l) then s
         else s.(leases := s.leases[l := Satellite],
                 phase := if Named(s.phase) == Some(l) then Withdrawn(s.phase) else s.phase)
       case _ => s)
    case Shutdown(l, reason) =>
      if !Owns(s.phase, l) then s
      else s.(phase := if reason.Quit? || reason.Startup? then Disposed else Replacing(l, reason, None))
  }

  // ----- The class ----------------------------------------------------------------

  class FactoryLease {
    constructor () {}
  }

  class OutpostPiRuntimeCoordinator {
    var phase: Phase<FactoryLease>
    var leases: map<FactoryLease, Disposition>
    var childSessionIds: set<Session>

    ghost function Current(): State<FactoryLease> reads this { State(phase, leases, childSessionIds) }

    constructor ()
      ensures Current() == State(Unowned, map[], {}) && Consistent(Current())
    {
      phase, leases, childSessionIds := Unowned, map[], {};
    }

    method AcquireFactory() returns (lease: FactoryLease)
      requires Consistent(Current())
      modifies this
      ensures fresh(lease) && lease !in old(leases)
      ensures Consistent(Current()) && Current() == Next(old(Current()), Acquire(lease))
    {
      lease := new FactoryLease();
      assert lease !in leases;
      if phase.Unowned? {
        phase := Offered(lease);
        leases := leases[lease := Candidate];
      } else if phase.Replacing? && phase.successor.None? {
        phase := phase.(successor := Some(lease));
        leases := leases[lease := Candidate];
      } else {
        leases := leases[lease := Satellite];
      }
    }

    method ChildSessionCreated(sessionId: Session)
      requires Consistent(Current())
      modifies this`childSessionIds
      ensures Consistent(Current()) && Current() == Next(old(Current()), ChildCreated(sessionId))
    {
      if sessionId != "" { childSessionIds := childSessionIds + {sessionId}; }
    }

    method ChildSessionDisposed(sessionId: Session)
      requires Consistent(Current())
      modifies this`childSessionIds
      ensures Consistent(Current()) && Current() == Next(old(Current()), ChildDisposed(sessionId))
    {
      if sessionId != "" { childSessionIds := childSessionIds - {sessionId}; }
    }

    method RejectCandidate(lease: FactoryLease)
      requires Consistent(Current())
      modifies this`phase, this`leases
      ensures Consistent(Current())
      ensures old(Owns(phase, lease)) ==> Current() == old(Current())
      ensures !old(Owns(phase, lease)) ==>
                leases == old(leases)[lease := Satellite]
                && phase == if Named(old(phase)) == Some(lease) then Withdrawn(old(phase)) else old(phase)
    {
      if phase.Active? && phase.owner == lease { return; }
      leases := leases[lease := Satellite];
      if phase.Offered? && phase.candidate == lease {
        phase := Unowned;
      } else if phase.Replacing? && phase.successor == Some(lease) {
        phase := phase.(successor := None);
      }
    }

    /** `activate`: the last branch does not look at the state again; the lease table makes it safe. */
    method ActivateLease(lease: FactoryLease, sessionId: Session) returns (r: Activation)
      requires Consistent(Current())
      modifies this
      ensures r == Reply(old(Current()), lease, sessionId)
      ensures Consistent(Current()) && Current() == Next(old(Current()), Activate(lease, sessionId))
    {
      var disposition := if lease in leases then Some(leases[lease]) else None;
      if phase.Disposed? { return DeniedDisposed; }
      if phase.Active? && phase.owner == lease && phase.session == sessionId { return Duplicate; }
      if sessionId in childSessionIds {
        RejectCandidate(lease);
        return DeniedChild;
      }
      if phase.Active? && phase.owner == lease {
        phase := Active(lease, sessionId);
        assert leases == leases[lease := Owner];
        return Activated;
      }
      if disposition != Some(Candidate) { return DeniedSatellite; }
      if phase.Offered? && phase.candidate != lease { return DeniedSatellite; }
      if phase.Replacing? && phase.successor != Some(lease) { return DeniedSatellite; }
      leases := leases[lease := Owner];
      phase := Active(lease, sessionId);
      return Activated;
    }

    method BeginShutdown(lease: FactoryLease, reason: Reason) returns (accepted: bool)
      requires Consistent(Current())
      modifies this`phase
      ensures accepted == Owns(old(phase), lease)
      ensures Consistent(Current()) && Current() == Next(old(Current()), Shutdown(lease, reason))
    {
      if !phase.Active? || phase.owner != lease { return false; }
      if reason.Quit? || reason.Startup? {
        phase := Disposed;
      } else {
        phase := Replacing(lease, reason, None);
      }
      return true;
    }
  }

  // ----- Every run ------------------------------------------------------------------

  /** A run from the start: each acquired lease is a new object. */
  ghost predicate IsRun<L>(states: seq<State<L>>, events: seq<Event<L>>) {
    && |states| == |events| + 1
    && states[0] == State(Unowned, map[], {})
    && forall i | 0 <= i < |events| ::
         && (events[i].Acquire? ==> events[i].lease !in states[i].leases)
         && states[i + 1] == Next(states[i], events[i])
  }

  lemma StepConsistent<L>(s: State<L>, e: Event<L>)
    requires Consistent(s) && (e.Acquire? ==> e.lease !in s.leases)
    ensures Consistent(Next(s, e))
  {
  }

  /** What a reply means: the lease owns the session afterwards exactly when it is told so, and otherwise nothing it
      owned changes; a lease that may own is turned away only for a child's session. */
  lemma ReplyMeans<L>(s: State<L>, l: L, session: Session)
    requires Consistent(s)
    ensures var t, r := Next(s, Activate(l, session)), Reply(s, l, session);
            && (r == Activated || r == Duplicate <==> t.phase == Active(l, session))
            && (r == Duplicate <==> s.phase == Active(l, session)) && (r == Duplicate ==> t == s)
            && (r == DeniedDisposed <==> s.phase.Disposed?) && (r == DeniedDisposed ==> t == s)
            && (r == DeniedSatellite ==> t == s && !Owns(s.phase, l) && (l in s.leases ==> s.leases[l] != Candidate))
            && (r == DeniedChild ==> session in s.children && !Owns(t.phase, l) == !Owns(s.phase, l)
                                     && (Owns(s.phase, l) ==> t == s) && Named(t.phase) != Some(l))
            && (r == Activated <==> session !in s.children && s.phase != Active(l, session)
                                    && (Owns(s.phase, l) || (l in s.leases && s.leases[l] == Candidate)))
            && t.children == s.children && forall other | other != l && other in s.leases :: other in t.leases && t.leases[other] == s.leases[other]
  {
  }

  /** A new lease is the candidate exactly when nobody owns or is about to: at first, or in a replacement. */
  lemma CandidateMeans<L>(s: State<L>, l: L)
    requires Consistent(s) && l !in s.leases
    ensures var t := Next(s, Acquire(l));
            && (l in t.leases && (t.leases[l] == Candidate <==> Named(t.phase) == Some(l)))
            && (Named(t.phase) == Some(l) <==> (s.phase.Unowned? || s.phase.Replacing?) && Named(s.phase).None?)
            && (t.leases[l] == Candidate || (t.leases[l] == Satellite && t.phase == s.phase))
            && t.children == s.children && forall other | other in s.leases :: other in t.leases && t.leases[other] == s.leases[other]
  {
  }

  /** An owner that shuts down makes way: for good on quit, else for the next lease, which takes over. */
  lemma SuccessorTakesOver<L>(s: State<L>, former: L, reason: Reason, l: L, session: Session)
    requires Consistent(s) && Owns(s.phase, former) && l !in s.leases && session !in s.children
    ensures var t := Next(s, Shutdown(former, reason));
            if reason in {Quit, Startup} then t.phase == Disposed && Reply(Next(t, Acquire(l)), l, session) == DeniedDisposed
            else !Owns(t.phase, former) && Reply(Next(t, Acquire(l)), l, session) == Activated
                 && Next(Next(t, Acquire(l)), Activate(l, session)).phase == Active(l, session)
  {
  }

  /** The sessions that may not own are those announced as children and not disposed of. */
  lemma ChildrenMean<L>(s: State<L>, e: Event<L>, id: Session)
    ensures id in Next(s, e).children <==>
              (id in s.children && e != ChildDisposed(id)) || (e == ChildCreated(id) && id != "") || (id == "" && "" in s.children)
  {
  }

  /** In every reachable state the leases marked candidate are exactly the one named in the state. */
  lemma {:induction false} RunConsistent<L>(states: seq<State<L>>, events: seq<Event<L>>, i: nat)
    requires IsRun(states, events) && i < |states|
    ensures Consistent(states[i])
  {
    if i > 0 {
      RunConsistent(states, events, i - 1);
      StepConsistent(states[i - 1], events[i - 1]);
    }
  }

  /** A live owner is displaced only by its own shutdown. */
  lemma OwnerLeavesOnlyByShutdown<L>(states: seq<State<L>>, events: seq<Event<L>>, i: nat, l: L)
    requires IsRun(states, events) && i < |events|
    requires Owns(states[i].phase, l) && !Owns(states[i + 1].phase, l)
    ensures events[i].Shutdown? && events[i].lease == l
  {
    RunConsistent(states, events, i);
  }

  /** `l` is known and can no longer become owner: not a candidate and not the owner. */
  ghost predicate Retired<L>(s: State<L>, l: L) {
    l in s.leases && s.leases[l] != Candidate && !Owns(s.phase, l)
  }

  lemma {:induction false} RetiredForGood<L>(states: seq<State<L>>, events: seq<Event<L>>, i: nat, k: nat, l: L)
    requires IsRun(states, events) && i <= k < |states| && Retired(states[i], l)
    ensures Retired(states[k], l)
  {
    if i < k {
      RetiredForGood(states, events, i, k - 1, l);
      RunConsistent(states, events, k - 1);
    }
  }

  /** Former owners never own again. */
  lemma NoSecondReign<L>(states: seq<State<L>>, events: seq<Event<L>>, i: nat, j: nat, k: nat, l: L)
    requires IsRun(states, events) && i < j <= k < |states|
    requires Owns(states[i].phase, l) && !Owns(states[j].phase, l)
    ensures !Owns(states[k].phase, l)
  {
    var m := i;
    while Owns(states[m + 1].phase, l)
      invariant i <= m < j && Owns(states[m].phase, l)
      decreases j - m
    {
      m := m + 1;
    }
    RunConsistent(states, events, m);
    assert Retired(states[m + 1], l);
    RetiredForGood(states, events, m + 1, k, l);
  }

  /** Satellites never own. */
  lemma SatelliteNeverOwns<L>(states: seq<State<L>>, events: seq<Event<L>>, i: nat, k: nat, l: L)
    requires IsRun(states, events) && i <= k < |states|
    requires l in states[i].leases && states[i].leases[l] == Satellite
    ensures !Owns(states[k].phase, l)
  {
    RunConsistent(states, events, i);
    RetiredForGood(states, events, i, k, l);
  }

  /** Every change of owner or of its session is an activation that was not a registered child at that moment. */
  lemma OwnerSessionIsNoChild<L>(states: seq<State<L>>, events: seq<Event<L>>, i: nat)
    requires IsRun(states, events) && i < |events|
    requires states[i + 1].phase.Active? && states[i + 1].phase != states[i].phase
    ensures events[i] == Activate(states[i + 1].phase.owner, states[i + 1].phase.session)
    ensures states[i + 1].phase.session !in states[i].children
    ensures Owns(states[i].phase, events[i].lease) || Named(states[i].phase) == Some(events[i].lease)
  {
    RunConsistent(states, events, i);
  }

  /** DISPOSED is final. */
  lemma {:induction false} DisposedIsFinal<L>(states: seq<State<L>>, events: seq<Event<L>>, i: nat, k: nat)
    requires IsRun(states, events) && i <= k < |states| && states[i].phase.Disposed?
    ensures states[k].phase.Disposed?
  {
    if i < k { DisposedIsFinal(states, events, i, k - 1); }
  }
}
