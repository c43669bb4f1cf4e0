/** Scale-to-zero: the agent counts its turns, arms a timer when the last one
    ends, and commits to exit only after the live gates confirm that it is idle. */
module IdleReaper {
  import opened Options
  import G = TurnGates

  /** The monitor's fields, and the timers still counting down: a stopped timer
      leaves `live`, but a callback that was already launched is not undone. */
  datatype Monitor = Monitor(
    timeout: int,
    inflight: set<nat>,
    nextID: nat,
    timer: Option<nat>,
    reaped: bool,
    live: set<nat>,
    nextTimer: nat)
  {
    function Disarm(): Monitor {
      if timer.None? then this else this.(live := live - {timer.value}, timer := None)
    }

    function Arm(): Monitor {
      if timeout <= 0 then this
      else
        var stopped := if timer.None? then live else live - {timer.value};
        this.(timer := Some(nextTimer), live := stopped + {nextTimer}, nextTimer := nextTimer + 1)
    }

    /** A turn registers under the next id and cancels the pending reap. */
    function TurnStarted(): Monitor {
      if reaped then this
      else Disarm().(inflight := inflight + {nextID}, nextID := nextID + 1)
    }

    function TurnEnded(id: nat): Monitor {
      if id !in inflight then this
      else
        var left := this.(inflight := inflight - {id});
        if left.inflight == {} && !reaped then left.Arm() else left
    }

    /** What the timer callback checks before it consults the pool. */
    predicate MayFire() {
      !reaped && inflight == {}
    }

    function FireDecided(idle: bool): Monitor {
      if idle then this.(reaped := true) else Arm()
    }
  }

  function NewMonitor(timeout: int): Monitor {
    Monitor(timeout, {}, 0, None, false, {}, 0)
  }

  class IdleMonitor {
    const timeout: int
    var inflight: set<nat>
    var nextID: nat
    var timer: Option<nat>
    var reaped: bool
    var live: set<nat>
    var nextTimer: nat
    var reaps: nat

    ghost function View(): Monitor
      reads this
    {
      Monitor(timeout, inflight, nextID, timer, reaped, live, nextTimer)
    }

    /** EnableIdleReaper arms at once: an agent that never gets a turn still reaps. */
    constructor (timeout: int)
      ensures View() == NewMonitor(timeout).Arm() && reaps == 0
    {
      this.timeout := timeout;
      inflight, nextID, timer, reaped, live, nextTimer, reaps := {}, 0, None, false, {}, 0, 0;
      new;
      ArmLocked();
    }

    method TurnStarted() returns (id: nat, ok: bool)
      modifies this
      ensures View() == old(View()).TurnStarted() && reaps == old(reaps)
      ensures ok == !old(reaped) && id == old(nextID)
    {
      id := nextID;
      if reaped { return id, false; }
      if timer.Some? {
        live := live - {timer.value};
        timer := None;
      }
      nextID := nextID + 1;
      inflight := inflight + {id};
      ok := true;
    }

    method TurnEnded(id: nat)
      modifies this
      ensures View() == old(View()).TurnEnded(id) && reaps == old(reaps)
    {
      if id !in inflight { return; }
      inflight := inflight - {id};
      if inflight == {} && !reaped {
        ArmLocked();
      }
    }

    method ArmLocked()
      modifies this
      ensures View() == old(View()).Arm() && reaps == old(reaps)
    {
      if timeout <= 0 { return; }
      if timer.Some? {
        live := live - {timer.value};
      }
      timer := Some(nextTimer);
      live := live + {nextTimer};
      nextTimer := nextTimer + 1;
    }

    /** The timer callback; `idle` is the pool's answer while the lock is held. */
    method Fire(idle: bool)
      modifies this
      ensures View() == if old(View()).MayFire() then old(View()).FireDecided(idle) else old(View())
      ensures reaps == old(reaps) + if old(View()).MayFire() && idle then 1 else 0
    {
      if reaped || inflight != {} { return; }
      if !idle {
        ArmLocked();
        return;
      }
      reaped := true;
      reaps := reaps + 1;
    }
  }

  // ----- Gated turns, timer callbacks and the pool scan, interleaved -----

  /** One pool entry, and so one gate. */
  type Ctx = nat

  /** A turn that holds its gate. Between Registered and Drained it carries the
      id under which the monitor counts it; Settled owes only the gate release. */
  datatype Turn =
    | Admitted
    | Registered(id: nat)
    | Running(id: nat)
    | Drained(id: nat)
    | Settled

  /** The callback holds the monitor's lock while it looks at one gate after the
      other; the gates themselves keep moving meanwhile. */
  datatype Firing = NotFiring | Scanning(todo: set<Ctx>, sawBusy: bool)

  type TurnKey = (Ctx, G.Ticket)

  /** `closures` are the outstanding release closures, by the id each captured. */
  datatype Agent = Agent(
    gates: map<Ctx, G.System>,
    pooled: set<Ctx>,
    turns: map<TurnKey, Turn>,
    closures: map<nat, TurnKey>,
    monitor: Monitor,
    callbacks: nat,
    firing: Firing,
    reaps: nat)
  {
    function GateOf(c: Ctx): G.System {
      if c in gates then gates[c] else G.START
    }

    predicate IsAt(k: TurnKey, t: Turn) {
      k in turns && turns[k] == t
    }

    /** Registered with the monitor and not yet signed off. */
    predicate Active(k: TurnKey) {
      k in turns && !turns[k].Admitted? && !turns[k].Settled?
    }
  }

  function Booted(timeout: int): Agent {
    Agent(map[], {}, map[], map[], NewMonitor(timeout).Arm(), 0, NotFiring, 0)
  }

  datatype Step =
    | Pool(c: Ctx)                       // the pool creates the context's entry
    | Forget(c: Ctx)                     // the pool drops the entry for good
    | AtGate(c: Ctx, step: G.Step)       // any step at the gate except ending a turn
    | Start(k: TurnKey)                  // turnStarted
    | Open(k: TurnKey)                   // the provider turn begins
    | OpenFails(k: TurnKey)
    | Drain(k: TurnKey)                  // the provider's event channel is drained
    | End(k: TurnKey)                    // the release closure
    | Leave(k: TurnKey)                  // the gate release
    | Expire(t: nat)                     // a timer runs out: its callback is launched
    | FireBegin
    | Scan(c: Ctx)
    | FireEnd
    | Lose(id: nat)                      // a fault: the monitor loses count of a turn

  function AtGateStep(a: Agent, c: Ctx, step: G.Step): Agent {
    var before := a.GateOf(c);
    if step.Finish? && (c, step.me) in a.turns then a
    else
      var after := G.Apply(before, step);
      var a' := a.(gates := a.gates[c := after]);
      if (step.Arrive? || step.Wake?) && !G.At(before, step.me, G.Holding) && G.At(after, step.me, G.Holding)
      then a'.(turns := a.turns[(c, step.me) := Admitted])
      else a'
  }

  function StartStep(a: Agent, k: TurnKey): Agent {
    if a.firing != NotFiring || !a.IsAt(k, Admitted) then a
    else if a.monitor.reaped then a.(turns := a.turns[k := Settled])
    else
      var id := a.monitor.nextID;
      a.(turns := a.turns[k := Registered(id)], closures := a.closures[id := k], monitor := a.monitor.TurnStarted())
  }

  function EndStep(a: Agent, k: TurnKey): Agent {
    if a.firing != NotFiring || k !in a.turns || !a.turns[k].Drained? then a
    else
      var id := a.turns[k].id;
      a.(turns := a.turns[k := Settled], closures := a.closures - {id}, monitor := a.monitor.TurnEnded(id))
  }

  function LeaveStep(a: Agent, k: TurnKey): Agent {
    if !a.IsAt(k, Settled) then a
    else a.(gates := a.gates[k.0 := G.Apply(a.GateOf(k.0), G.Finish(k.1))], turns := a.turns - {k})
  }

  function ScanStep(a: Agent, c: Ctx): Agent {
    if !a.firing.Scanning? || c !in a.firing.todo then a
    else a.(firing := Scanning(a.firing.todo - {c}, a.firing.sawBusy || a.GateOf(c).gate.InFlight()))
  }

  function FireEndStep(a: Agent): Agent {
    if !a.firing.Scanning? || (a.firing.todo != {} && !a.firing.sawBusy) then a
    else
      var idle := !a.firing.sawBusy;
      a.(firing := NotFiring, monitor := a.monitor.FireDecided(idle), reaps := a.reaps + if idle then 1 else 0)
  }

  function Apply(a: Agent, step: Step): Agent {
    match step
    case Pool(c) => a.(pooled := a.pooled + {c})
    case Forget(c) => a.(pooled := a.pooled - {c})
    case AtGate(c, gs) => if c in a.pooled || c in a.gates then AtGateStep(a, c, gs) else a
    case Start(k) => StartStep(a, k)
    case Open(k) =>
      if k in a.turns && a.turns[k].Registered? then a.(turns := a.turns[k := Running(a.turns[k].id)]) else a
    case OpenFails(k) =>
      if k in a.turns && a.turns[k].Registered? then a.(turns := a.turns[k := Drained(a.turns[k].id)]) else a
    case Drain(k) =>
      if k in a.turns && a.turns[k].Running? then a.(turns := a.turns[k := Drained(a.turns[k].id)]) else a
    case End(k) => EndStep(a, k)
    case Leave(k) => LeaveStep(a, k)
    case Expire(t) =>
      if t in a.monitor.live then
        a.(monitor := a.monitor.(live := a.monitor.live - {t}), callbacks := a.callbacks + 1) else a
    case FireBegin =>
      if a.callbacks == 0 || a.firing != NotFiring then a
      else if !a.monitor.MayFire() then a.(callbacks := a.callbacks - 1)
      else a.(callbacks := a.callbacks - 1, firing := Scanning(a.pooled, false))
    case Scan(c) => ScanStep(a, c)
    case FireEnd => FireEndStep(a)
    case Lose(id) =>
      if a.firing == NotFiring then a.(monitor := a.monitor.(inflight := a.monitor.inflight - {id})) else a
  }

  function Run(a: Agent, steps: seq<Step>): Agent {
    if steps == [] then a else Apply(Run(a, steps[..|steps| - 1]), steps[|steps| - 1])
  }

  // ----- What every run keeps -----

  ghost predicate GatesSound(a: Agent) {
    && (forall c :: c in a.gates ==> G.Inv(a.gates[c]))
    && (forall k :: k in a.turns ==> k.0 in a.gates && G.At(a.gates[k.0], k.1, G.Holding))
  }

  predicate IdsSound(a: Agent) {
    && (forall k :: k in a.turns && a.Active(k) ==> a.turns[k].id in a.closures && a.closures[a.turns[k].id] == k)
    && (forall id :: id in a.closures ==>
      id < a.monitor.nextID && a.Active(a.closures[id]) && a.turns[a.closures[id]].id == id)
  }

  /** The safety claim: once the agent has committed to reap, no turn is between
      registration and sign-off, so none runs and none can begin; and onReap has
      been called exactly once, otherwise never. */
  ghost predicate ReapSafe(a: Agent) {
    && a.reaps == (if a.monitor.reaped then 1 else 0)
    && (a.monitor.reaped ==> a.firing == NotFiring && forall k :: !a.Active(k))
  }

  ghost predicate Base(a: Agent) {
    a.monitor.timeout > 0 && GatesSound(a) && IdsSound(a) && ReapSafe(a)
  }

  /** The first safeguard: the count is exactly the set of outstanding closures. */
  predicate Counted(a: Agent) {
    && a.monitor.inflight == a.closures.Keys
    && (a.firing.Scanning? ==> a.monitor.inflight == {})
  }

  /** The second safeguard: the scan still has to visit, or has already noticed,
      the gate of every active turn. */
  ghost predicate Covered(a: Agent) {
    && (forall c :: c in a.gates ==> c in a.pooled)
    && (a.firing.Scanning? ==> forall k :: a.Active(k) ==> a.firing.sawBusy || k.0 in a.firing.todo)
  }

  /** An idle agent that has not reaped has a timer running, a callback on its
      way or a callback at work; at most one timer runs at a time, and none while a
      turn is counted. */
  predicate Armed(a: Agent) {
    && (!a.monitor.reaped && a.monitor.inflight == {} && a.firing == NotFiring ==>
      a.monitor.live != {} || a.callbacks > 0)
    && (forall t :: t in a.monitor.live ==> a.monitor.timer == Some(t))
    && (a.monitor.live != {} ==> a.monitor.inflight == {})
  }

  lemma HoldingIsBusy(s: G.System, t: G.Ticket)
    requires G.Inv(s) && G.At(s, t, G.Holding)
    ensures s.gate.InFlight()
  {
    assert G.Owns(s, t);
  }

  lemma ReachedGate(a: Agent, c: Ctx)
    requires GatesSound(a)
    ensures G.Inv(a.GateOf(c))
  {
    if c !in a.gates { G.EveryRunKeepsInv([]); }
  }

  lemma OthersKeepHolding(s: G.System, step: G.Step, t: G.Ticket)
    requires G.At(s, t, G.Holding) && step != G.Finish(t)
    ensures G.At(G.Apply(s, step), t, G.Holding)
  {
  }

  lemma AtGateKeepsGates(a: Agent, c: Ctx, step: G.Step)
    requires GatesSound(a)
    ensures GatesSound(AtGateStep(a, c, step))
  {
    hide G.Inv, G.Apply;
    ReachedGate(a, c);
    G.StepKeepsInv(a.GateOf(c), step);
    forall k | k in a.turns && k.0 == c && step != G.Finish(k.1)
      ensures G.At(G.Apply(a.GateOf(c), step), k.1, G.Holding)
    {
      OthersKeepHolding(a.GateOf(c), step, k.1);
    }
  }

  lemma LeaveKeepsGates(a: Agent, k: TurnKey)
    requires GatesSound(a) && a.IsAt(k, Settled)
    ensures GatesSound(LeaveStep(a, k))
  {
    hide G.Inv, G.Apply;
    G.StepKeepsInv(a.GateOf(k.0), G.Finish(k.1));
    forall l | l in a.turns && l.0 == k.0 && l != k
      ensures G.At(G.Apply(a.GateOf(k.0), G.Finish(k.1)), l.1, G.Holding)
    {
      OthersKeepHolding(a.GateOf(k.0), G.Finish(k.1), l.1);
    }
  }

  lemma StepKeepsGates(a: Agent, step: Step)
    requires GatesSound(a)
    ensures GatesSound(Apply(a, step))
  {
    hide G.Inv, G.Apply;
    match step
    case AtGate(c, gs) => AtGateKeepsGates(a, c, gs);
    case Leave(k) => if a.IsAt(k, Settled) { LeaveKeepsGates(a, k); }
    case _ =>
  }

  /** Steps at a gate leave the active turns, the monitor and the scan alone. */
  lemma GateStepsKeepTheRest(a: Agent, step: Step)
    requires GatesSound(a) && (step.AtGate? || step.Leave?)
    ensures var a' := Apply(a, step);
            && a'.monitor == a.monitor && a'.firing == a.firing && a'.callbacks == a.callbacks && a'.reaps == a.reaps
              && a'.closures == a.closures
            && (forall k :: a'.Active(k) <==> a.Active(k))
            && (forall k :: a.Active(k) ==> a'.turns[k] == a.turns[k])
  {
    hide G.Inv, G.Apply;
    if step.AtGate? && (step.step.Arrive? || step.step.Wake?) {
      var k := (step.c, step.step.me);
      assert k in a.turns ==> G.At(a.GateOf(step.c), k.1, G.Holding);
    }
  }

  lemma StartKeepsIds(a: Agent, k: TurnKey)
    requires IdsSound(a)
    ensures IdsSound(StartStep(a, k))
  {
  }

  lemma EndKeepsIds(a: Agent, k: TurnKey)
    requires IdsSound(a)
    ensures IdsSound(EndStep(a, k))
  {
  }

  lemma AdvanceKeepsIds(a: Agent, step: Step)
    requires IdsSound(a) && (step.Open? || step.OpenFails? || step.Drain?)
    ensures IdsSound(Apply(a, step))
    ensures forall k :: Apply(a, step).Active(k) <==> a.Active(k)
  {
  }

  lemma StepKeepsIds(a: Agent, step: Step)
    requires GatesSound(a) && IdsSound(a)
    ensures IdsSound(Apply(a, step))
  {
    hide G.Inv, G.Apply;
    match step
    case Start(k) => StartKeepsIds(a, k);
    case End(k) => EndKeepsIds(a, k);
    case AtGate(_, _) => GateStepsKeepTheRest(a, step);
    case Leave(_) => GateStepsKeepTheRest(a, step);
    case Open(_) => AdvanceKeepsIds(a, step);
    case OpenFails(_) => AdvanceKeepsIds(a, step);
    case Drain(_) => AdvanceKeepsIds(a, step);
    case _ =>
  }

  /** The callback is about to commit: it has seen no busy gate. */
  predicate Committing(a: Agent, step: Step) {
    step.FireEnd? && a.firing == Scanning({}, false)
  }

  lemma StepKeepsReapSafe(a: Agent, step: Step)
    requires Base(a) && (Committing(a, step) ==> !a.monitor.reaped && forall k :: !a.Active(k))
    ensures ReapSafe(Apply(a, step))
  {
    hide G.Inv, G.Apply;
    match step
    case AtGate(_, _) => GateStepsKeepTheRest(a, step);
    case Leave(_) => GateStepsKeepTheRest(a, step);
    case Open(_) => AdvanceKeepsIds(a, step);
    case OpenFails(_) => AdvanceKeepsIds(a, step);
    case Drain(_) => AdvanceKeepsIds(a, step);
    case _ =>
  }

  lemma StepKeepsBase(a: Agent, step: Step)
    requires Base(a) && (Committing(a, step) ==> !a.monitor.reaped && forall k :: !a.Active(k))
    ensures Base(Apply(a, step))
  {
    hide G.Inv, G.Apply, GatesSound, IdsSound, ReapSafe;
    StepKeepsGates(a, step);
    StepKeepsIds(a, step);
    StepKeepsReapSafe(a, step);
  }

  lemma StepKeepsCounted(a: Agent, step: Step)
    requires Base(a) && Counted(a) && !step.Lose?
    ensures Base(Apply(a, step)) && Counted(Apply(a, step))
  {
    hide G.Inv, G.Apply;
    if Committing(a, step) {
      forall k ensures !a.Active(k) { assert a.closures.Keys == {}; }
    }
    StepKeepsBase(a, step);
    if step.AtGate? || step.Leave? { GateStepsKeepTheRest(a, step); }
  }

  lemma ScanKeepsCovered(a: Agent, c: Ctx)
    requires Base(a) && Covered(a)
    ensures Covered(ScanStep(a, c))
  {
    hide G.Inv, G.Apply;
    forall k | a.Active(k) && k.0 == c
      ensures a.GateOf(c).gate.InFlight()
    {
      HoldingIsBusy(a.gates[c], k.1);
    }
  }

  lemma StepKeepsCovered(a: Agent, step: Step)
    requires Base(a) && Covered(a) && !step.Forget?
    ensures Base(Apply(a, step)) && Covered(Apply(a, step))
  {
    hide G.Inv, G.Apply;
    StepKeepsBase(a, step);
    match step
    case AtGate(_, _) => GateStepsKeepTheRest(a, step);
    case Leave(_) => GateStepsKeepTheRest(a, step);
    case Open(_) => AdvanceKeepsIds(a, step);
    case OpenFails(_) => AdvanceKeepsIds(a, step);
    case Drain(_) => AdvanceKeepsIds(a, step);
    case Scan(c) => ScanKeepsCovered(a, c);
    case _ =>
  }

  lemma StepKeepsArmed(a: Agent, step: Step)
    requires Base(a) && Counted(a) && Armed(a) && !step.Lose?
    ensures Armed(Apply(a, step))
  {
    hide G.Inv, G.Apply;
    if step.AtGate? || step.Leave? { GateStepsKeepTheRest(a, step); }
    if step.End? && step.k in a.turns { assert a.turns[step.k].Drained? ==> a.Active(step.k); }
    if step.Expire? && step.t in a.monitor.live { assert a.monitor.live - {step.t} == {}; }
  }

  lemma BootIsSound(timeout: int)
    requires timeout > 0
    ensures Base(Booted(timeout)) && Counted(Booted(timeout)) && Covered(Booted(timeout)) && Armed(Booted(timeout))
  {
    assert 0 in Booted(timeout).monitor.live;
  }

  /** The count alone is enough: in every interleaving of turns at any number of
      gates with timer callbacks, stale ones included, the agent that reaps has
      no turn at work then or ever after, and onReap runs at most once. Forgotten
      pool entries, which the scan cannot see, do not matter. */
  lemma {:induction false} CountingAloneIsSafe(timeout: int, steps: seq<Step>)
    requires timeout > 0
    requires forall step :: step in steps ==> !step.Lose?
    ensures Base(Run(Booted(timeout), steps)) && Counted(Run(Booted(timeout), steps))
    ensures Armed(Run(Booted(timeout), steps))
  {
    hide G.Inv, G.Apply, Base, Counted, Armed, Apply;
    if steps == [] {
      BootIsSound(timeout);
    } else {
      var prefix, last := steps[..|steps| - 1], steps[|steps| - 1];
      assert last in steps;
      CountingAloneIsSafe(timeout, prefix);
      StepKeepsCounted(Run(Booted(timeout), prefix), last);
      StepKeepsArmed(Run(Booted(timeout), prefix), last);
    }
  }

  /** The scan alone is enough: even a monitor that loses count of turns at any
      moment never reaps a working agent, although the gates move while the scan
      looks at them one by one. */
  lemma {:induction false} ScanAloneIsSafe(timeout: int, steps: seq<Step>)
    requires timeout > 0
    requires forall step :: step in steps ==> !step.Forget?
    ensures Base(Run(Booted(timeout), steps)) && Covered(Run(Booted(timeout), steps))
  {
    hide G.Inv, G.Apply, Base, Covered, Apply;
    if steps == [] {
      BootIsSound(timeout);
    } else {
      var prefix, last := steps[..|steps| - 1], steps[|steps| - 1];
      assert last in steps;
      ScanAloneIsSafe(timeout, prefix);
      StepKeepsCovered(Run(Booted(timeout), prefix), last);
    }
  }

  /** The claims in the agent's own terms. */
  lemma ReaperKillsNoTurn(timeout: int, steps: seq<Step>)
    requires timeout > 0
    requires (forall step :: step in steps ==> !step.Lose?) || (forall step :: step in steps ==> !step.Forget?)
    ensures var a := Run(Booted(timeout), steps);
            && a.reaps <= 1
            && (a.reaps > 0 ==> forall k :: k in a.turns ==> a.turns[k].Admitted? || a.turns[k].Settled?)
  {
    hide G.Inv, G.Apply, Apply;
    if forall step :: step in steps ==> !step.Lose? {
      CountingAloneIsSafe(timeout, steps);
    } else {
      ScanAloneIsSafe(timeout, steps);
    }
    var a := Run(Booted(timeout), steps);
    forall k | a.reaps > 0 && k in a.turns
      ensures a.turns[k].Admitted? || a.turns[k].Settled?
    {
      assert !a.Active(k);
    }
  }

  /** No idle agent is forgotten: without work and unreaped, it has a timer
      counting down, a callback launched, or a callback holding the lock. */
  lemma IdleAgentStaysArmed(timeout: int, steps: seq<Step>)
    requires timeout > 0
    requires forall step :: step in steps ==> !step.Lose?
    ensures var a := Run(Booted(timeout), steps);
            (forall k :: !a.Active(k)) && !a.monitor.reaped && a.firing == NotFiring ==>
              a.monitor.live != {} || a.callbacks > 0
  {
    hide G.Inv, G.Apply, Apply;
    CountingAloneIsSafe(timeout, steps);
    var a := Run(Booted(timeout), steps);
    if id :| id in a.monitor.inflight {
      assert a.Active(a.closures[id]);
    }
  }

  /** The idle clock stands still while a turn is at work. */
  lemma NoTimerDuringWork(timeout: int, steps: seq<Step>, k: TurnKey)
    requires timeout > 0
    requires forall step :: step in steps ==> !step.Lose?
    requires Run(Booted(timeout), steps).Active(k)
    ensures Run(Booted(timeout), steps).monitor.live == {}
  {
    hide G.Inv, G.Apply, Apply;
    CountingAloneIsSafe(timeout, steps);
    var a := Run(Booted(timeout), steps);
    assert a.turns[k].id in a.monitor.inflight;
  }

  // ----- Whoever has a gate has a turn -----

  ghost predicate HoldersHaveTurns(a: Agent) {
    forall c: Ctx, t: G.Ticket :: c in a.gates && G.At(a.gates[c], t, G.Holding) ==> (c, t) in a.turns
  }

  lemma NewHolder(s: G.System, step: G.Step, t: G.Ticket)
    requires G.At(G.Apply(s, step), t, G.Holding) && !G.At(s, t, G.Holding)
    ensures (step.Arrive? || step.Wake?) && step.me == t
  {
  }

  lemma GateKeepsHolders(a: Agent, c: Ctx, step: G.Step)
    requires HoldersHaveTurns(a)
    ensures HoldersHaveTurns(AtGateStep(a, c, step))
  {
    var b := AtGateStep(a, c, step);
    forall d: Ctx, t: G.Ticket | d in b.gates && G.At(b.gates[d], t, G.Holding) ensures (d, t) in b.turns {
      if d == c && b != a && !G.At(a.GateOf(c), t, G.Holding) { NewHolder(a.GateOf(c), step, t); }
    }
  }

  lemma Released(s: G.System, me: G.Ticket)
    ensures !G.At(G.Apply(s, G.Finish(me)), me, G.Holding)
  {
  }

  lemma LeaveKeepsHolders(a: Agent, k: TurnKey)
    requires HoldersHaveTurns(a) && GatesSound(a)
    ensures HoldersHaveTurns(LeaveStep(a, k))
  {
    if a.IsAt(k, Settled) { Released(a.GateOf(k.0), k.1); }
    hide G.Inv, G.Apply, G.At;
    var b := LeaveStep(a, k);
    forall d: Ctx, t: G.Ticket | d in b.gates && G.At(b.gates[d], t, G.Holding) ensures (d, t) in b.turns {
      if d == k.0 && b != a && !G.At(a.GateOf(d), t, G.Holding) { NewHolder(a.GateOf(d), G.Finish(k.1), t); }
    }
  }

  lemma StepKeepsHolders(a: Agent, step: Step)
    requires HoldersHaveTurns(a) && GatesSound(a)
    ensures HoldersHaveTurns(Apply(a, step)) && GatesSound(Apply(a, step))
  {
    hide G.Inv, G.Apply, G.At;
    StepKeepsGates(a, step);
    hide GatesSound;
    match step
    case AtGate(c, gs) => GateKeepsHolders(a, c, gs);
    case Leave(k) => LeaveKeepsHolders(a, k);
    case _ =>
  }

  lemma TurnsAreHolders(a: Agent)
    requires HoldersHaveTurns(a) && GatesSound(a)
    ensures forall c: Ctx, t: G.Ticket :: (c, t) in a.turns <==> c in a.gates && G.At(a.gates[c], t, G.Holding)
  {
    hide G.Inv, G.At;
  }

  /** In every run a caller that holds a gate, whether it found it free or was woken
      for it, is one of the agent's turns, and the turns are those callers only. */
  lemma {:induction false} HoldersAreTurns(timeout: int, steps: seq<Step>)
    ensures var a := Run(Booted(timeout), steps);
            && GatesSound(a) && HoldersHaveTurns(a)
            && forall c: Ctx, t: G.Ticket :: (c, t) in a.turns <==> c in a.gates && G.At(a.gates[c], t, G.Holding)
  {
    hide G.Inv, G.Apply, G.At, Apply;
    if steps != [] {
      var prefix, last := steps[..|steps| - 1], steps[|steps| - 1];
      HoldersAreTurns(timeout, prefix);
      StepKeepsHolders(Run(Booted(timeout), prefix), last);
      hide GatesSound, HoldersHaveTurns;
    }
    TurnsAreHolders(Run(Booted(timeout), steps));
  }

  // ----- When it does reap, and when it never does -----

  /** Nothing counts down and no callback is under way. */
  predicate Off(a: Agent) {
    a.monitor.timeout <= 0 && a.monitor.live == {} && a.callbacks == 0 && a.firing == NotFiring && a.reaps == 0
  }

  lemma StepKeepsOff(a: Agent, step: Step)
    requires Off(a)
    ensures Off(Apply(a, step))
  {
    hide G.Apply;
  }

  /** A timeout of zero or less turns the reaper off for good. */
  lemma {:induction false} DisabledReaperNeverReaps(timeout: int, steps: seq<Step>)
    requires timeout <= 0
    ensures Off(Run(Booted(timeout), steps))
  {
    hide Apply;
    if steps != [] {
      hide Off;
      DisabledReaperNeverReaps(timeout, steps[..|steps| - 1]);
      StepKeepsOff(Run(Booted(timeout), steps[..|steps| - 1]), steps[|steps| - 1]);
    }
  }

  lemma {:induction false} RunConcat(a: Agent, first: seq<Step>, more: seq<Step>)
    ensures Run(a, first + more) == Run(Run(a, first), more)
  {
    hide Apply;
    if more == [] {
      assert first + more == first;
    } else {
      var n := |more| - 1;
      assert (first + more)[..|first + more| - 1] == first + more[..n];
      RunConcat(a, first, more[..n]);
    }
  }

  lemma RunOne(a: Agent, step: Step)
    ensures Run(a, [step]) == Apply(a, step)
  {
    hide Apply;
    assert [step][..0] == [] && Run(a, []) == a;
  }

  /** The callback looks at the gates one by one, all of them idle. */
  lemma {:induction false} ScanThrough(a: Agent) returns (steps: seq<Step>)
    requires a.firing.Scanning? && !a.firing.sawBusy
    requires forall c :: c in a.firing.todo ==> !a.GateOf(c).gate.InFlight()
    ensures Run(a, steps) == a.(firing := Scanning({}, false))
    decreases a.firing.todo
  {
    if a.firing.todo == {} {
      steps := [];
    } else {
      var c :| c in a.firing.todo;
      var next := Apply(a, Scan(c));
      assert next == a.(firing := Scanning(a.firing.todo - {c}, false));
      var rest := ScanThrough(next);
      hide Apply;
      RunOne(a, Scan(c));
      RunConcat(a, [Scan(c)], rest);
      steps := [Scan(c)] + rest;
    }
  }

  /** And an idle agent does reap: with a timer running, no turn counted and every gate
      idle, the timer's own steps commit the exit. */
  lemma IdleAgentReaps(a: Agent, t: nat) returns (steps: seq<Step>)
    requires t in a.monitor.live && a.firing == NotFiring && !a.monitor.reaped && a.monitor.inflight == {}
    requires forall c :: c in a.pooled ==> !a.GateOf(c).gate.InFlight()
    ensures var b := Run(a, steps); b.monitor.reaped && b.reaps == a.reaps + 1 && b.turns == a.turns
  {
    var a1 := Apply(a, Expire(t));
    var a2 := Apply(a1, FireBegin);
    assert a2.firing == Scanning(a.pooled, false) && a2.gates == a.gates;
    var scans := ScanThrough(a2);
    var a3 := Run(a2, scans);
    var a4 := Apply(a3, FireEnd);
    assert a4.monitor.reaped && a4.reaps == a.reaps + 1 && a4.turns == a.turns;
    hide Apply;
    steps := [Expire(t)] + ([FireBegin] + (scans + [FireEnd]));
    RunOne(a, Expire(t));
    RunOne(a1, FireBegin);
    RunOne(a3, FireEnd);
    RunConcat(a2, scans, [FireEnd]);
    RunConcat(a1, [FireBegin], scans + [FireEnd]);
    RunConcat(a, [Expire(t)], [FireBegin] + (scans + [FireEnd]));
  }

  // ----- A turn from arrival to departure -----

  lemma RunOfThree(a: Agent, x: Step, y: Step, z: Step)
    ensures Run(a, [x, y, z]) == Apply(Apply(Apply(a, x), y), z)
  {
    hide Apply;
    assert [x, y, z][..2] == [x, y] && [x, y][..1] == [x];
    RunOne(a, x);
    assert Run(a, [x, y]) == Apply(Apply(a, x), y);
  }

  /** The context is pooled or its gate still known to somebody, the gate is free, and
      the caller is new to it. */
  predicate MayEnter(a: Agent, c: Ctx, me: G.Ticket) {
    var s := a.GateOf(c);
    && (c in a.pooled || c in a.gates) && a.firing == NotFiring && (c, me) !in a.turns
    && me !in s.phase && !s.gate.busy && !s.gate.evicting && s.gate.waiters == []
  }

  lemma Enters(a: Agent, c: Ctx, me: G.Ticket, depth: int)
    requires MayEnter(a, c, me)
    ensures var b := Apply(a, AtGate(c, G.Arrive(me, false, depth)));
            && b == a.(gates := b.gates, turns := a.turns[(c, me) := Admitted])
            && b.GateOf(c).gate == a.GateOf(c).gate.(busy := true) && G.At(b.GateOf(c), me, G.Holding)
  {
  }

  /** A turn that comes to a free gate runs, counted and with the reap called off. */
  lemma TurnRuns(a: Agent, c: Ctx, me: G.Ticket, depth: int)
    requires MayEnter(a, c, me) && !a.monitor.reaped
    ensures var k, id := (c, me), a.monitor.nextID;
            var b := Run(a, [AtGate(c, G.Arrive(me, false, depth)), Start(k), Open(k)]);
            && b.IsAt(k, Running(id)) && G.At(b.GateOf(c), me, G.Holding) && b.GateOf(c).gate.busy
            && b.monitor.inflight == a.monitor.inflight + {id} && b.monitor.timer == None
  {
    var k, arrive := (c, me), AtGate(c, G.Arrive(me, false, depth));
    Enters(a, c, me, depth);
    hide G.Apply;
    var counted := Apply(Apply(a, arrive), Start(k));
    assert counted.IsAt(k, Registered(a.monitor.nextID)) && counted.monitor == a.monitor.TurnStarted();
    RunOfThree(a, arrive, Start(k), Open(k));
  }

  /** When it is done, neither the gate nor the monitor has it any more, and if it was
      the only one the timer runs again. */
  lemma TurnIsOver(a: Agent, c: Ctx, me: G.Ticket, id: nat)
    requires a.firing == NotFiring && a.IsAt((c, me), Running(id)) && id in a.monitor.inflight
    requires G.At(a.GateOf(c), me, G.Holding) && a.GateOf(c).gate.waiters == []
    ensures var k := (c, me);
            var b := Run(a, [Drain(k), End(k), Leave(k)]);
            && k !in b.turns && !b.GateOf(c).gate.busy && b.monitor.inflight == a.monitor.inflight - {id}
            && (a.monitor.inflight == {id} && a.monitor.timeout > 0 && !a.monitor.reaped ==>
                  b.monitor.timer.Some? && b.monitor.timer.value in b.monitor.live)
  {
    var k := (c, me);
    hide G.Apply;
    var ended := Apply(Apply(a, Drain(k)), End(k));
    assert ended == a.(turns := ended.turns, closures := ended.closures, monitor := a.monitor.TurnEnded(id));
    RunOfThree(a, Drain(k), End(k), Leave(k));
    hide Apply;
    Leaves(ended, c, me);
  }

  lemma Leaves(a: Agent, c: Ctx, me: G.Ticket)
    requires a.IsAt((c, me), Settled) && G.At(a.GateOf(c), me, G.Holding) && a.GateOf(c).gate.waiters == []
    ensures var b := Apply(a, Leave((c, me)));
            b.monitor == a.monitor && (c, me) !in b.turns && !b.GateOf(c).gate.busy
  {
  }

  /** After the reap a turn that comes is refused, and gives the gate back. */
  lemma ReapedAgentRefuses(a: Agent, c: Ctx, me: G.Ticket, depth: int)
    requires MayEnter(a, c, me) && a.monitor.reaped
    ensures var k := (c, me);
            var b := Run(a, [AtGate(c, G.Arrive(me, false, depth)), Start(k), Leave(k)]);
            b.monitor == a.monitor && k !in b.turns && !b.GateOf(c).gate.busy
  {
    var k, arrive := (c, me), AtGate(c, G.Arrive(me, false, depth));
    Enters(a, c, me, depth);
    var entered := Apply(a, arrive);
    hide G.Apply;
    RunOfThree(a, arrive, Start(k), Leave(k));
    Leaves(Apply(entered, Start(k)), c, me);
  }
}
