/** The per-context FIFO turn gate: one owner at a time, a bounded queue behind
    it, and an eviction lease that closes the door while a session is replaced. */
module TurnGates {
  import opened Sequences

  /** The identity of the channel a queued caller waits on. One caller makes one
      acquire call, so the same number also names the caller. */
  type Ticket = nat

  datatype Admission = Canceled | SessionEvicted | Admitted | QueueFull(waiting: nat) | Queued

  /** The lock-protected fields of a gate and the channels closed by a grant,
      with what each critical section makes of them. */
  datatype Gate = Gate(busy: bool, evicting: bool, waiters: seq<Ticket>, closed: set<Ticket>) {

    /** The outcome of the locked part of an acquire. `dead` says that the
        caller's context is already done; a depth of zero or less never waits. */
    function Admission(dead: bool, depth: int): Admission {
      if dead then Canceled
      else if evicting then SessionEvicted
      else if !busy then Admitted
      else if |waiters| >= depth then QueueFull(|waiters|)
      else Queued
    }

    function Acquire(me: Ticket, dead: bool, depth: int): Gate {
      match Admission(dead, depth)
      case Admitted => this.(busy := true)
      case Queued => this.(waiters := waiters + [me])
      case _ => this
    }

    function Release(): Gate {
      if |waiters| > 0
      then this.(waiters := waiters[1..], closed := closed + {waiters[0]})
      else this.(busy := false)
    }

    function GiveUp(me: Ticket): Gate {
      this.(waiters := Without(waiters, {me}))
    }

    predicate InFlight() {
      busy || |waiters| > 0
    }

    function TryBeginEviction(): Gate {
      if evicting || InFlight() then this else this.(evicting := true)
    }

    function EndEviction(): Gate {
      this.(evicting := false)
    }
  }

  const OPEN_GATE := Gate(false, false, [], {})

  /** The gate as the source keeps it: fields updated in place, one method per
      critical section. */
  class TurnGate {
    var busy: bool
    var evicting: bool
    var waiters: seq<Ticket>
    var closed: set<Ticket>

    ghost function View(): Gate
      reads this
    {
      Gate(busy, evicting, waiters, closed)
    }

    constructor ()
      ensures View() == OPEN_GATE
    {
      busy, evicting, waiters, closed := false, false, [], {};
    }

    method Acquire(me: Ticket, dead: bool, depth: int) returns (r: Admission)
      modifies this
      ensures r == old(View()).Admission(dead, depth)
      ensures View() == old(View()).Acquire(me, dead, depth)
    {
      if dead { return Canceled; }
      if evicting { return SessionEvicted; }
      if !busy {
        busy := true;
        return Admitted;
      }
      if |waiters| >= depth { return QueueFull(|waiters|); }
      waiters := waiters + [me];
      return Queued;
    }

    /** The critical section of a caller whose context ended while it waited:
        true when its place in the queue was found and given back, false when a
        grant came first and the caller now has to release what it was given. */
    method GiveUp(me: Ticket) returns (removed: bool)
      requires Distinct(waiters)
      modifies this
      ensures removed <==> me in old(waiters)
      ensures View() == old(View()).GiveUp(me)
    {
      var i := 0;
      while i < |waiters|
        invariant 0 <= i <= |waiters| && waiters == old(waiters)
        invariant View() == old(View())
        invariant me !in waiters[..i]
      {
        if waiters[i] == me {
          WithoutOne(waiters, i);
          waiters := waiters[..i] + waiters[i + 1..];
          return true;
        }
        i := i + 1;
      }
      assert waiters[..i] == waiters;
      WithoutAbsent(waiters, {me});
      return false;
    }

    method Release()
      modifies this
      ensures View() == old(View()).Release()
    {
      if |waiters| > 0 {
        var ch := waiters[0];
        waiters := waiters[1..];
        closed := closed + {ch};
        return;
      }
      busy := false;
    }

    method TryBeginEviction() returns (ok: bool)
      modifies this
      ensures View() == old(View()).TryBeginEviction()
      ensures ok <==> !old(evicting) && !old(View()).InFlight()
    {
      if evicting || busy || |waiters| > 0 { return false; }
      evicting := true;
      return true;
    }

    method EndEviction()
      modifies this
      ensures View() == old(View()).EndEviction()
    {
      evicting := false;
    }
  }

  // ----- Many callers on one gate -----

  /** Where one caller stands. A waiting caller whose channel has been closed
      owns the gate although it has not woken up yet; HandingOn is a caller that
      gave up after its grant and still has to release. */
  datatype Phase = Waiting | Holding | HandingOn | Gone

  /** A gate, its callers, and the history the ordering claims are about: the
      callers accepted in arrival order, the callers that became owner in the
      order they did, and those that left the queue before their grant. */
  datatype System = System(
    gate: Gate,
    phase: map<Ticket, Phase>,
    arrivals: seq<Ticket>,
    admitted: seq<Ticket>,
    withdrawn: set<Ticket>)

  const START := System(OPEN_GATE, map[], [], [], {})

  /** One critical section of one caller, or one step of the session pool. */
  datatype Step =
    | Arrive(me: Ticket, dead: bool, depth: int)
    | Wake(me: Ticket)
    | Withdraw(me: Ticket)
    | Finish(me: Ticket)
    | Lease
    | EndLease

  predicate At(s: System, t: Ticket, p: Phase) {
    t in s.phase && s.phase[t] == p
  }

  function Arrived(s: System, me: Ticket, dead: bool, depth: int): System {
    var g := s.gate.Acquire(me, dead, depth);
    match s.gate.Admission(dead, depth)
    case Admitted =>
      s.(gate := g, phase := s.phase[me := Holding], arrivals := s.arrivals + [me], admitted := s.admitted + [me])
    case Queued =>
      s.(gate := g, phase := s.phase[me := Waiting], arrivals := s.arrivals + [me])
    case _ =>
      s.(gate := g, phase := s.phase[me := Gone])
  }

  function Withdrawn(s: System, me: Ticket): System {
    if me in s.gate.waiters
    then s.(gate := s.gate.GiveUp(me), phase := s.phase[me := Gone], withdrawn := s.withdrawn + {me})
    else s.(phase := s.phase[me := HandingOn])
  }

  function Released(s: System, me: Ticket): System {
    s.(gate := s.gate.Release(), phase := s.phase[me := Gone],
      admitted := s.admitted + s.gate.waiters[..if |s.gate.waiters| > 0 then 1 else 0])
  }

  /** Steps that are not enabled change nothing, so any sequence of steps is a
      run: any number of callers, in any interleaving, canceled at any point. */
  function Apply(s: System, step: Step): System {
    match step
    case Arrive(me, dead, depth) => if me in s.phase then s else Arrived(s, me, dead, depth)
    case Wake(me) =>
      if At(s, me, Waiting) && me in s.gate.closed then s.(phase := s.phase[me := Holding]) else s
    case Withdraw(me) => if At(s, me, Waiting) then Withdrawn(s, me) else s
    case Finish(me) => if At(s, me, Holding) || At(s, me, HandingOn) then Released(s, me) else s
    case Lease => s.(gate := s.gate.TryBeginEviction())
    case EndLease => s.(gate := s.gate.EndEviction())
  }

  function Run(s: System, steps: seq<Step>): System {
    if steps == [] then s else Apply(Run(s, steps[..|steps| - 1]), steps[|steps| - 1])
  }

  predicate Owns(s: System, t: Ticket) {
    At(s, t, Holding) || At(s, t, HandingOn) || (At(s, t, Waiting) && t in s.gate.closed)
  }

  /** Ownership: the gate is busy exactly when someone owns it, and the owner is
      then the caller admitted last, and nobody else. */
  ghost predicate OwnedByLastAdmitted(s: System) {
    && (s.gate.busy ==> s.admitted != [])
    && (forall t :: Owns(s, t) <==> s.gate.busy && t == s.admitted[|s.admitted| - 1])
  }

  predicate QueueIsWaiting(s: System) {
    && Distinct(s.gate.waiters)
    && (forall t :: t in s.gate.waiters ==> At(s, t, Waiting) && t !in s.gate.closed)
    && (forall t :: t in s.phase && s.phase[t] == Waiting && t !in s.gate.closed ==> t in s.gate.waiters)
  }

  predicate HistoryKnown(s: System) {
    && (forall t :: t in s.gate.closed ==> t in s.phase)
    && (forall t :: t in s.arrivals ==> t in s.phase)
    && (forall t :: t in s.admitted ==> t in s.phase && t !in s.gate.waiters)
    && (forall t :: t in s.withdrawn ==> t in s.phase && t !in s.gate.waiters)
  }

  /** What every run keeps. The last clause is the FIFO law: whoever was accepted
      and did not withdraw becomes owner in arrival order, and the queue is the
      rest of that order. */
  ghost predicate Inv(s: System) {
    && OwnedByLastAdmitted(s)
    && QueueIsWaiting(s)
    && HistoryKnown(s)
    && (s.gate.evicting ==> !s.gate.InFlight())
    && (s.gate.waiters != [] ==> s.gate.busy)
    && Without(s.arrivals, s.withdrawn) == s.admitted + s.gate.waiters
  }

  // ----- Each kind of step keeps the invariant -----

  lemma RejectKeepsInv(s: System, me: Ticket)
    requires Inv(s) && me !in s.phase
    ensures Inv(s.(phase := s.phase[me := Gone]))
  {
    var s' := s.(phase := s.phase[me := Gone]);
    assert forall t :: Owns(s', t) <==> Owns(s, t);
    assert OwnedByLastAdmitted(s');
  }

  lemma AdmitKeepsInv(s: System, me: Ticket)
    requires Inv(s) && me !in s.phase && !s.gate.busy && !s.gate.evicting
    ensures Inv(Arrived(s, me, false, 0))
  {
    forall t ensures Owns(Arrived(s, me, false, 0), t) <==> t == me { assert !Owns(s, t); }
    WithoutConcat(s.arrivals, [me], s.withdrawn);
    assert s.admitted + s.gate.waiters + [me] == (s.admitted + [me]) + s.gate.waiters;
  }

  lemma EnqueueKeepsInv(s: System, me: Ticket, depth: int)
    requires Inv(s) && me !in s.phase && s.gate.Admission(false, depth) == Queued
    ensures Inv(Arrived(s, me, false, depth))
  {
    var s' := Arrived(s, me, false, depth);
    assert forall t :: Owns(s', t) <==> Owns(s, t);
    WithoutConcat(s.arrivals, [me], s.withdrawn);
    assert s.admitted + s.gate.waiters + [me] == s.admitted + (s.gate.waiters + [me]);
  }

  lemma ArriveKeepsInv(s: System, me: Ticket, dead: bool, depth: int)
    requires Inv(s) && me !in s.phase
    ensures Inv(Arrived(s, me, dead, depth))
  {
    match s.gate.Admission(dead, depth)
    case Admitted => AdmitKeepsInv(s, me);
    case Queued => EnqueueKeepsInv(s, me, depth);
    case _ => RejectKeepsInv(s, me);
  }

  lemma LateWithdrawKeepsInv(s: System, me: Ticket)
    requires Inv(s) && At(s, me, Waiting) && me !in s.gate.waiters
    ensures Inv(Withdrawn(s, me))
  {
    var s' := Withdrawn(s, me);
    assert forall t :: Owns(s', t) <==> Owns(s, t);
  }

  lemma WithdrawKeepsInv(s: System, me: Ticket)
    requires Inv(s) && At(s, me, Waiting) && me in s.gate.waiters
    ensures Inv(Withdrawn(s, me))
  {
    var s' := Withdrawn(s, me);
    assert forall t :: Owns(s', t) <==> Owns(s, t);
    forall t ensures t in s'.gate.waiters <==> t in s.gate.waiters && t != me {
      WithoutMembers(s.gate.waiters, {me}, t);
    }
    WithoutDistinct(s.gate.waiters, {me});
    assert Without(s'.arrivals, s'.withdrawn) == s'.admitted + s'.gate.waiters by {
      WithoutTwice(s.arrivals, s.withdrawn, {me});
      WithoutConcat(s.admitted, s.gate.waiters, {me});
      WithoutAbsent(s.admitted, {me});
    }
  }

  lemma OpenKeepsInv(s: System, me: Ticket)
    requires Inv(s) && (At(s, me, Holding) || At(s, me, HandingOn)) && s.gate.waiters == []
    ensures Inv(Released(s, me))
  {
    assert Owns(s, me);
    forall t ensures !Owns(Released(s, me), t) { assert t != me ==> !Owns(s, t); }
  }

  lemma HandOverKeepsInv(s: System, me: Ticket)
    requires Inv(s) && (At(s, me, Holding) || At(s, me, HandingOn)) && s.gate.waiters != []
    ensures Inv(Released(s, me))
  {
    var s', next := Released(s, me), s.gate.waiters[0];
    assert Owns(s, me) && At(s, next, Waiting);
    forall t ensures Owns(s', t) <==> t == next { assert t != me ==> !Owns(s, t); }
    assert s.admitted + s.gate.waiters == s'.admitted + s'.gate.waiters;
  }

  lemma WakeOrLeaseKeepsInv(s: System, step: Step)
    requires Inv(s) && (step.Wake? || step.Lease? || step.EndLease?)
    ensures Inv(Apply(s, step))
  {
    assert forall t :: Owns(Apply(s, step), t) <==> Owns(s, t);
    hide Without, Distinct;
  }

  lemma StepKeepsInv(s: System, step: Step)
    requires Inv(s)
    ensures Inv(Apply(s, step))
  {
    match step
    case Arrive(me, dead, depth) => if me !in s.phase { ArriveKeepsInv(s, me, dead, depth); }
    case Withdraw(me) =>
      if At(s, me, Waiting) {
        if me in s.gate.waiters { WithdrawKeepsInv(s, me); } else { LateWithdrawKeepsInv(s, me); }
      }
    case Finish(me) =>
      if At(s, me, Holding) || At(s, me, HandingOn) {
        if s.gate.waiters == [] { OpenKeepsInv(s, me); } else { HandOverKeepsInv(s, me); }
      }
    case _ => WakeOrLeaseKeepsInv(s, step);
  }

  /** In every interleaving of any number of callers and evictions. */
  lemma {:induction false} EveryRunKeepsInv(steps: seq<Step>)
    ensures Inv(Run(START, steps))
  {
    if steps != [] {
      EveryRunKeepsInv(steps[..|steps| - 1]);
      StepKeepsInv(Run(START, steps[..|steps| - 1]), steps[|steps| - 1]);
    }
  }

  /** Exactly one owner while the gate is busy, none while it is free; a queue
      only behind an owner; no owner and no queue under the eviction lease. */
  lemma OneOwnerIffBusy(steps: seq<Step>)
    ensures var s := Run(START, steps);
            && (s.gate.busy <==> exists t :: Owns(s, t))
            && (forall t, u :: Owns(s, t) && Owns(s, u) ==> t == u)
            && (s.gate.waiters != [] ==> s.gate.busy)
            && (s.gate.evicting ==> !s.gate.busy && s.gate.waiters == [])
  {
    EveryRunKeepsInv(steps);
    var s := Run(START, steps);
    if s.gate.busy { assert Owns(s, s.admitted[|s.admitted| - 1]); }
  }

  /** FIFO without barging: whatever the interleaving, owners are admitted in
      arrival order with the withdrawn callers taken out, and whoever has not had
      the gate yet is still queued in that order. An arrival that finds a queue
      never becomes owner ahead of it. */
  lemma AdmissionIsFifo(steps: seq<Step>)
    ensures var s := Run(START, steps); Without(s.arrivals, s.withdrawn) == s.admitted + s.gate.waiters
  {
    EveryRunKeepsInv(steps);
  }

  lemma {:induction false} RunConcat(s: System, a: seq<Step>, b: seq<Step>)
    ensures Run(s, a + b) == Run(Run(s, a), b)
  {
    if b == [] {
      assert a + b == a;
    } else {
      var n := |b| - 1;
      assert (a + b)[..|a + b| - 1] == a + b[..n];
      RunConcat(s, a, b[..n]);
    }
  }

  /** The gate is never stranded: from every reachable state, the steps the
      successive owners still owe (wake up if granted, then release), and nothing
      else, empty the queue and open the gate, and serve exactly the callers
      that were queued, in order. */
  lemma {:induction false} OwnersDrainTheQueue(s: System) returns (steps: seq<Step>)
    requires Inv(s)
    ensures forall step :: step in steps ==> step.Wake? || step.Finish?
    ensures var s' := Run(s, steps); !s'.gate.InFlight() && s'.admitted == s.admitted + s.gate.waiters
    decreases |s.gate.waiters|, s.gate.busy
  {
    if !s.gate.busy { return []; }
    var owner := s.admitted[|s.admitted| - 1];
    assert Owns(s, owner);
    var woken := Apply(s, Wake(owner));
    StepKeepsInv(s, Wake(owner));
    assert At(woken, owner, Holding) || At(woken, owner, HandingOn);
    var next := Apply(woken, Finish(owner));
    StepKeepsInv(woken, Finish(owner));
    var rest := OwnersDrainTheQueue(next);
    var first := [Wake(owner), Finish(owner)];
    steps := first + rest;
    RunConcat(s, first, rest);
    assert first[..1] == [Wake(owner)];
    assert Run(s, first[..1]) == woken by { assert [Wake(owner)][..0] == []; }
    assert Run(s, first) == next;
  }

  /** A queue depth that is never above d bounds the queue in every run. */
  lemma {:induction false} QueueIsBounded(steps: seq<Step>, d: nat)
    requires forall step :: step in steps && step.Arrive? ==> step.depth <= d
    ensures |Run(START, steps).gate.waiters| <= d
  {
    if steps != [] {
      var prefix, last := steps[..|steps| - 1], steps[|steps| - 1];
      assert last in steps;
      QueueIsBounded(prefix, d);
      EveryRunKeepsInv(prefix);
      hide Inv, Apply;
      StepKeepsBound(Run(START, prefix), last, d);
    }
  }

  lemma StepKeepsBound(s: System, step: Step, d: nat)
    requires Inv(s) && |s.gate.waiters| <= d && (step.Arrive? ==> step.depth <= d)
    ensures |Apply(s, step).gate.waiters| <= d
  {
    if step.Withdraw? && step.me in s.gate.waiters {
      var i :| 0 <= i < |s.gate.waiters| && s.gate.waiters[i] == step.me;
      WithoutOne(s.gate.waiters, i);
    }
    hide Without, OwnedByLastAdmitted, HistoryKnown;
  }

  lemma LeasedStepAdmitsNobody(s: System, step: Step)
    requires Inv(s) && s.gate.evicting && step != EndLease
    ensures var s' := Apply(s, step);
            s'.gate.evicting && !s'.gate.InFlight() && s'.admitted == s.admitted && s'.arrivals == s.arrivals
  {
    if step.Finish? { assert !Owns(s, step.me); }
    if step.Withdraw? { assert !Owns(s, step.me); }
  }

  /** Until the lease ends, a leased gate admits and queues nobody, whatever the
      callers do. */
  lemma {:induction false} LeaseAdmitsNobody(s: System, steps: seq<Step>)
    requires Inv(s) && s.gate.evicting && EndLease !in steps
    ensures Inv(Run(s, steps))
    ensures var s' := Run(s, steps);
            s'.gate.evicting && !s'.gate.InFlight() && s'.admitted == s.admitted && s'.arrivals == s.arrivals
  {
    if steps != [] {
      var prefix, last := steps[..|steps| - 1], steps[|steps| - 1];
      LeaseAdmitsNobody(s, prefix);
      assert last in steps;
      LeasedStepAdmitsNobody(Run(s, prefix), last);
      StepKeepsInv(Run(s, prefix), last);
    }
  }

  lemma SomebodyOwnsIffBusy(s: System)
    requires Inv(s)
    ensures s.gate.busy <==> exists t :: Owns(s, t)
  {
    if s.gate.busy { assert Owns(s, s.admitted[|s.admitted| - 1]); }
  }

  /** The lease is given exactly to a gate that nobody owns and nobody waits at. */
  lemma LeaseIsGivenIff(s: System)
    requires Inv(s) && !s.gate.evicting
    ensures Apply(s, Lease).gate.evicting <==> s.gate.waiters == [] && forall t :: !Owns(s, t)
  {
    SomebodyOwnsIffBusy(s);
  }

  /** Without a lease, a gate nobody owns admits whoever comes first, at once. */
  lemma FreeGateAdmits(s: System, me: Ticket, depth: int)
    requires Inv(s) && me !in s.phase && forall t :: !Owns(s, t)
    ensures At(Apply(Apply(s, EndLease), Arrive(me, false, depth)), me, Holding)
    ensures !s.gate.evicting ==> At(Apply(s, Arrive(me, false, depth)), me, Holding)
  {
    SomebodyOwnsIffBusy(s);
  }

  predicate TurnedAway(s: System, me: Ticket) {
    At(s, me, HandingOn) || At(s, me, Gone)
  }

  lemma {:induction false} TurnedAwayNeverRuns(s: System, me: Ticket, steps: seq<Step>)
    requires TurnedAway(s, me)
    ensures TurnedAway(Run(s, steps), me)
  {
    if steps != [] { TurnedAwayNeverRuns(s, me, steps[..|steps| - 1]); }
  }

  /** A caller that gives up while it waits never holds the gate afterwards, even when
      the grant had come first: then all that is left for it is to hand the gate on. */
  lemma CanceledCallerNeverRuns(s: System, me: Ticket, steps: seq<Step>)
    requires At(s, me, Waiting)
    ensures !At(Run(Apply(s, Withdraw(me)), steps), me, Holding)
    ensures me in s.gate.waiters ==> At(Apply(s, Withdraw(me)), me, Gone)
    ensures me !in s.gate.waiters ==> At(Apply(s, Withdraw(me)), me, HandingOn)
  {
    TurnedAwayNeverRuns(Apply(s, Withdraw(me)), me, steps);
  }

  /** Nor does one that was turned away at the door: late, at a leased gate, or with the
      queue full. */
  lemma RejectedCallerNeverRuns(s: System, me: Ticket, dead: bool, depth: int, steps: seq<Step>)
    requires me !in s.phase
    requires dead || s.gate.evicting || (s.gate.busy && |s.gate.waiters| >= depth)
    ensures !At(Run(Apply(s, Arrive(me, dead, depth)), steps), me, Holding)
    ensures Apply(s, Arrive(me, dead, depth)).gate == s.gate
  {
    TurnedAwayNeverRuns(Apply(s, Arrive(me, dead, depth)), me, steps);
  }
}
