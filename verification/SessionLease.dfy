/** The session pool together with the turn gates of its slots: what the eviction
    lease is for. */
module SessionLeases {
  import G = TurnGates
  import opened Options
  import P = SessionPools

  /** A gate belongs to one slot; a later slot of the same context has its own. */
  datatype GateId = GateId(c: P.Ctx, gen: nat)

  datatype World = World(pool: P.Pool, gates: GateId -> G.System)

  datatype Step =
    | Turn(g: GateId, step: G.Step)
    | Lookup(c: P.Ctx, now: P.Time, healthy: bool, victim: P.Ctx, made: P.Made)
    | IDKnown(c: P.Ctx, owner: nat, id: string)
    | TurnFinished(c: P.Ctx, owner: nat, now: P.Time)
    | Reap(now: P.Time, drop: set<P.Ctx>)
    | Crash(now: P.Time)

  function GateOf(p: P.Pool, c: P.Ctx): GateId
    requires c in p.entries
  {
    GateId(c, p.entries[c].gen)
  }

  /** Contexts whose gate gives the reaper its lease: no turn runs or waits. */
  ghost function Leasable(w: World): set<P.Ctx> {
    set c | c in w.pool.entries && !w.gates(GateOf(w.pool, c)).gate.InFlight()
      && !w.gates(GateOf(w.pool, c)).gate.evicting
  }

  ghost function Swept(w: World, now: P.Time): set<P.Ctx> {
    P.Swept(w.pool, now, Leasable(w))
  }

  ghost function Stepped(gates: GateId -> G.System, at: set<GateId>, step: G.Step): GateId -> G.System {
    g => if g in at then G.Apply(gates(g), step) else gates(g)
  }

  ghost function SweptGates(w: World, now: P.Time): set<GateId> {
    set c | c in Swept(w, now) :: GateOf(w.pool, c)
  }

  /** The gate a lookup installs a session behind, if it does. */
  ghost function InstalledGate(w: World, step: Step): set<GateId>
    requires step.Lookup?
  {
    var (p, r) := P.LookedUp(w.pool, step.c, step.now, step.healthy, step.victim, step.made);
    if r.Installed? then {GateOf(p, step.c)} else {}
  }

  ghost function Apply(w: World, step: Step): World {
    match step
    case Turn(g, s) =>
      if s.Lease? || s.EndLease? || g.gen >= w.pool.nextGen then w else w.(gates := Stepped(w.gates, {g}, s))
    case Lookup(c, now, healthy, victim, made) =>
      if !P.Possible(w.pool, P.DoLookup(c, now, healthy, victim, made)) then w
      else World(P.LookedUp(w.pool, c, now, healthy, victim, made).0,
        Stepped(w.gates, InstalledGate(w, step), G.EndLease))
    case IDKnown(c, owner, id) => w.(pool := P.IDKnown(w.pool, c, owner, id))
    case TurnFinished(c, owner, now) => w.(pool := P.TurnFinished(w.pool, c, owner, now))
    case Reap(now, drop) =>
      if !P.MayDrop(P.Sweep(w.pool, now, Leasable(w)), drop) then w
      else World(P.Reap(w.pool, now, Leasable(w), drop), Stepped(w.gates, SweptGates(w, now), G.Lease))
    case Crash(now) => w.(pool := P.Rehydrate(w.pool, now))
  }

  ghost function Run(w: World, steps: seq<Step>): World {
    if steps == [] then w else Apply(Run(w, steps[..|steps| - 1]), steps[|steps| - 1])
  }

  ghost function Start(cfg: P.Config): World {
    World(P.NewPool(cfg), g => G.START)
  }

  ghost predicate LiveNotLeased(w: World) {
    forall c :: c in w.pool.entries && w.pool.entries[c].session.Some? ==> !w.gates(GateOf(w.pool, c)).gate.evicting
  }

  ghost predicate GatesSound(w: World) {
    forall g :: G.Inv(w.gates(g))
  }

  lemma SteppedSound(w: World, at: set<GateId>, step: G.Step)
    requires GatesSound(w)
    ensures GatesSound(w.(gates := Stepped(w.gates, at, step)))
  {
    hide G.Inv, G.Apply;
    forall g ensures G.Inv(Stepped(w.gates, at, step)(g)) {
      if g in at { G.StepKeepsInv(w.gates(g), step); }
    }
  }

  lemma StepKeepsGatesSound(w: World, step: Step)
    requires GatesSound(w)
    ensures GatesSound(Apply(w, step))
  {
    hide G.Inv, G.Apply, P.LookedUp, P.Reap, P.Rehydrate, P.Possible, P.MayDrop;
    match step
    case Turn(g, s) => SteppedSound(w, {g}, s);
    case Lookup(_, _, _, _, _) => SteppedSound(w, InstalledGate(w, step), G.EndLease);
    case Reap(now, _) => SteppedSound(w, SweptGates(w, now), G.Lease);
    case _ =>
  }

  lemma TurnKeepsLease(s: G.System, step: G.Step)
    requires !step.Lease?
    ensures G.Apply(s, step).gate.evicting ==> s.gate.evicting
    ensures step.EndLease? ==> !G.Apply(s, step).gate.evicting
  {
  }

  lemma LookupSessions(p: P.Pool, c: P.Ctx, now: P.Time, healthy: bool, v: P.Ctx, made: P.Made, d: P.Ctx)
    ensures var (p', r) := P.LookedUp(p, c, now, healthy, v, made);
            d in p'.entries && p'.entries[d].session.Some? && !(d == c && r.Installed?) ==>
              d in p.entries && p.entries[d].session.Some? && p'.entries[d].gen == p.entries[d].gen
  {
    assert var q := P.Checked(p, c, now, v);
      d in q.entries && q.entries[d].session.Some? ==>
        d in p.entries && p.entries[d].session == q.entries[d].session
          && q.entries[d].gen == p.entries[d].gen by { hide P.AtCap; }
    hide P.Checked, P.AtCap;
  }

  lemma LookupKeepsLive(w: World, step: Step)
    requires LiveNotLeased(w) && step.Lookup?
    ensures LiveNotLeased(Apply(w, step))
  {
    var w' := Apply(w, step);
    forall d | d in w'.pool.entries && w'.pool.entries[d].session.Some?
      ensures !w'.gates(GateOf(w'.pool, d)).gate.evicting {
      LookupSessions(w.pool, step.c, step.now, step.healthy, step.victim, step.made, d);
      hide P.LookedUp, P.Possible, G.Apply;
      TurnKeepsLease(w.gates(GateOf(w'.pool, d)), G.EndLease);
    }
  }

  lemma ReapSessions(p: P.Pool, now: P.Time, leased: set<P.Ctx>, drop: set<P.Ctx>, d: P.Ctx)
    ensures var p' := P.Reap(p, now, leased, drop);
            d in p'.entries && p'.entries[d].session.Some? ==>
              d in p.entries && p.entries[d] == p'.entries[d] && d !in P.Swept(p, now, leased)
  {
  }

  lemma ReapKeepsLive(w: World, now: P.Time, drop: set<P.Ctx>)
    requires LiveNotLeased(w)
    ensures LiveNotLeased(Apply(w, Reap(now, drop)))
  {
    var w' := Apply(w, Reap(now, drop));
    forall d | d in w'.pool.entries && w'.pool.entries[d].session.Some?
      ensures !w'.gates(GateOf(w'.pool, d)).gate.evicting {
      ReapSessions(w.pool, now, Leasable(w), drop, d);
    }
  }

  lemma StepKeepsLive(w: World, step: Step)
    requires LiveNotLeased(w)
    ensures LiveNotLeased(Apply(w, step))
  {
    if step.Lookup? {
      LookupKeepsLive(w, step);
    } else if step.Reap? {
      ReapKeepsLive(w, step.now, step.drop);
    } else if step.Turn? && !step.step.Lease? {
      TurnKeepsLease(w.gates(step.g), step.step);
      hide G.Apply;
    }
  }

  /** In every run: a slot that holds a session never has its gate under lease. */
  lemma {:induction false} LiveSessionIsNeverLeased(cfg: P.Config, steps: seq<Step>)
    ensures GatesSound(Run(Start(cfg), steps)) && LiveNotLeased(Run(Start(cfg), steps))
  {
    if steps == [] {
      G.EveryRunKeepsInv([]);
    } else {
      var prefix, last := steps[..|steps| - 1], steps[|steps| - 1];
      LiveSessionIsNeverLeased(cfg, prefix);
      hide GatesSound, LiveNotLeased, Apply;
      StepKeepsGatesSound(Run(Start(cfg), prefix), last);
      StepKeepsLive(Run(Start(cfg), prefix), last);
    }
  }

  lemma SweptGate(w: World, now: P.Time, c: P.Ctx)
    requires c in w.pool.entries
    ensures GateOf(w.pool, c) in SweptGates(w, now) <==> c in Swept(w, now)
    ensures c in Swept(w, now) ==> c in Leasable(w)
  {
    hide Leasable;
  }

  lemma ReapStep(w: World, now: P.Time, drop: set<P.Ctx>)
    requires P.MayDrop(P.Sweep(w.pool, now, Leasable(w)), drop)
    ensures Apply(w, Reap(now, drop)).pool == P.Reap(w.pool, now, Leasable(w), drop)
    ensures forall g ::
              Apply(w, Reap(now, drop)).gates(g) ==
              if g in SweptGates(w, now) then G.Apply(w.gates(g), G.Lease) else w.gates(g)
  {
    hide P.Reap, P.Sweep, P.MayDrop, SweptGates, Leasable, G.Apply;
  }

  lemma GrantedLease(s: G.System)
    ensures var s' := G.Apply(s, G.Lease);
            && (!s.gate.InFlight() ==> s'.gate.evicting)
            && s'.admitted == s.admitted && s'.arrivals == s.arrivals
  {
  }

  lemma FirstArrival(t: G.Ticket)
    ensures var s := G.Apply(G.START, G.Arrive(t, false, 0)); s.gate.busy && G.At(s, t, G.Holding)
  {
  }

  /** Idle eviction closes a session only if no turn runs on it and none waits;
      it leaves that gate leased, and every other live session's gate alone. */
  lemma IdleEvictionSparesTurns(w: World, now: P.Time, drop: set<P.Ctx>, c: P.Ctx)
    requires c in P.LiveCtxs(w.pool) && P.MayDrop(P.Sweep(w.pool, now, Leasable(w)), drop)
    ensures var w' := Apply(w, Reap(now, drop));
            var before, after := w.gates(GateOf(w.pool, c)), w'.gates(GateOf(w.pool, c));
            && (c in P.LiveCtxs(w'.pool) <==> c !in Swept(w, now))
            && (c !in Swept(w, now) ==> after == before)
            && (c in Swept(w, now) ==>
              !before.gate.InFlight() && after.gate.evicting && after.admitted == before.admitted
                && after.arrivals == before.arrivals)
  {
    P.ReapBoundsTheEvicted(w.pool, now, Leasable(w), drop);
    SweptGate(w, now, c);
    ReapStep(w, now, drop);
    GrantedLease(w.gates(GateOf(w.pool, c)));
    hide Apply, G.Apply, P.Reap, P.Sweep, P.MayDrop, P.Swept, SweptGates, P.LiveCtxs;
  }

  /** Exactly when one step opens a leased gate again: it puts a session behind it. */
  ghost predicate Reopens(w: World, step: Step, g: GateId) {
    step.Lookup? && P.Possible(w.pool, P.DoLookup(step.c, step.now, step.healthy, step.victim, step.made))
      && g in InstalledGate(w, step)
  }

  lemma LeasedStep(w: World, step: Step, g: GateId)
    requires GatesSound(w) && w.gates(g).gate.evicting
    ensures var after := Apply(w, step).gates(g);
            if Reopens(w, step, g) then
              !after.gate.evicting
            else
              && after.gate.evicting && !after.gate.InFlight()
              && after.admitted == w.gates(g).admitted && after.arrivals == w.gates(g).arrivals
  {
    assert G.Inv(w.gates(g));
    hide P.LookedUp, P.Possible, P.MayDrop, P.Reap, P.Rehydrate, GatesSound;
    if step.Turn? && step.g == g && step.step != G.EndLease {
      G.LeasedStepAdmitsNobody(w.gates(g), step.step);
    }
  }

  ghost predicate NeverReopens(w: World, steps: seq<Step>, g: GateId) {
    steps == [] || (var prefix := steps[..|steps| - 1];
                    NeverReopens(w, prefix, g) && !Reopens(Run(w, prefix), steps[|steps| - 1], g))
  }

  lemma {:induction false} LeasedUntilReopened(w: World, steps: seq<Step>, g: GateId)
    requires GatesSound(w) && w.gates(g).gate.evicting && NeverReopens(w, steps, g)
    ensures GatesSound(Run(w, steps))
    ensures var after := Run(w, steps).gates(g);
            && after.gate.evicting && !after.gate.InFlight()
            && after.admitted == w.gates(g).admitted && after.arrivals == w.gates(g).arrivals
  {
    hide GatesSound, Apply, Reopens;
    if steps == [] {
      assert G.Inv(w.gates(g)) by { SoundAt(w, g); }
    } else {
      var prefix, last := steps[..|steps| - 1], steps[|steps| - 1];
      LeasedUntilReopened(w, prefix, g);
      LeasedStep(Run(w, prefix), last, g);
      StepKeepsGatesSound(Run(w, prefix), last);
    }
  }

  lemma SoundAt(w: World, g: GateId)
    requires GatesSound(w)
    ensures G.Inv(w.gates(g))
  {
  }

  /** From any reachable state: once the reaper has evicted an idle session, its
      gate admits and queues no turn, whoever asks, until a lookup puts a new
      session behind that gate. */
  lemma EvictedSlotAdmitsNoTurn(
      cfg: P.Config, before: seq<Step>, w: World, now: P.Time, drop: set<P.Ctx>, c: P.Ctx, steps: seq<Step>)
    requires w == Run(Start(cfg), before) && c in Swept(w, now) && P.MayDrop(P.Sweep(w.pool, now, Leasable(w)), drop)
    requires NeverReopens(Apply(w, Reap(now, drop)), steps, GateOf(w.pool, c))
    ensures var g := GateOf(w.pool, c);
            var later := Run(Apply(w, Reap(now, drop)), steps);
            && later.gates(g).admitted == w.gates(g).admitted && later.gates(g).arrivals == w.gates(g).arrivals
            && later.gates(g).gate.evicting && !later.gates(g).gate.InFlight()
  {
    LiveSessionIsNeverLeased(cfg, before);
    IdleEvictionSparesTurns(w, now, drop, c);
    hide Run, GatesSound, LiveNotLeased, P.Reap, P.Sweep, P.Swept, P.MayDrop, NeverReopens, Apply;
    StepKeepsGatesSound(w, Reap(now, drop));
    LeasedUntilReopened(Apply(w, Reap(now, drop)), steps, GateOf(w.pool, c));
  }

  // ----- The cap does not ask the gate -----

  lemma SurvivesTheCapIff(p: P.Pool, c: P.Ctx, now: P.Time, v: P.Ctx, u: P.Ctx)
    requires u in P.LiveCtxs(p) && u != c
    ensures u !in P.LiveCtxs(P.Checked(p, c, now, v)) <==>
            p.cfg.policy.EvictLRU? && u == v && p.cfg.maxActive > 0 && |P.LiveCtxs(p) - {c}| >= p.cfg.maxActive
  {
    P.CheckedLive(p, c, now, v);
    hide P.Missed, P.Checked, P.LiveCtxs;
    assert P.LiveCtxs(P.Missed(p, c, now)) - {c} == P.LiveCtxs(p) - {c};
  }

  /** Making room under evict-lru closes its victim whatever runs on it: a live
      session of another context survives a lookup exactly when it is not the
      victim of a full pool. The gate plays no part. */
  lemma CapEvictionIgnoresTheGate(w: World, step: Step, u: P.Ctx)
    requires step.Lookup? && u in P.LiveCtxs(w.pool) && u != step.c
    requires P.Possible(w.pool, P.DoLookup(step.c, step.now, step.healthy, step.victim, step.made))
    ensures u !in P.LiveCtxs(Apply(w, step).pool) <==>
            && !P.Hits(w.pool, step.c, step.healthy) && w.pool.cfg.policy.EvictLRU? && u == step.victim
            && w.pool.cfg.maxActive > 0 && |P.LiveCtxs(w.pool) - {step.c}| >= w.pool.cfg.maxActive
  {
    var p, c := w.pool, step.c;
    var p' := P.LookedUp(p, c, step.now, step.healthy, step.victim, step.made).0;
    assert Apply(w, step).pool == p';
    hide Apply, P.Possible;
    if !P.Hits(p, c, step.healthy) {
      SurvivesTheCapIff(p, c, step.now, step.victim, u);
      hide P.Missed, P.Checked, P.LiveCtxs;
      if !step.made.Fails? { P.InstallLive(P.Checked(p, c, step.now, step.victim), c, step.now, step.made); }
    }
  }

  lemma RunSnoc(w: World, steps: seq<Step>, step: Step)
    ensures Run(w, steps + [step]) == Apply(Run(w, steps), step)
  {
    hide Apply;
    assert (steps + [step])[..|steps|] == steps;
  }

  /** The first lookup of a pool: one slot, live, behind a gate nobody has used. */
  lemma FirstLookup(cfg: P.Config, a: P.Ctx, now: P.Time)
    ensures var w := Apply(Start(cfg), Lookup(a, now, true, "", P.Notifier));
            && w.pool.entries == map[a := P.Entry("", 0, true, Some(0), now, 0)] && w.pool.nextGen == 1
            && w.pool.cfg == cfg && P.LiveCtxs(w.pool) == {a} && w.gates(GateId(a, 0)) == G.START
  {
    var w0 := Start(cfg);
    assert P.LiveCtxs(P.Missed(w0.pool, a, now)) - {a} == {};
    assert !P.AtCap(P.Missed(w0.pool, a, now), a);
  }

  /** A turn begun on a live session is cut off when another context needs the only
      place. */
  lemma RunningTurnIsCutOff(w: World, a: P.Ctx, b: P.Ctx, t: G.Ticket, now: P.Time, made: P.Made)
    requires P.LiveCtxs(w.pool) == {a} && b != a && w.pool.cfg.maxActive == 1 && w.pool.cfg.policy.EvictLRU?
    requires w.pool.entries[a].gen < w.pool.nextGen && w.gates(GateOf(w.pool, a)) == G.START
    ensures var w' := Apply(Apply(w, Turn(GateOf(w.pool, a), G.Arrive(t, false, 0))), Lookup(b, now, true, a, made));
            && a !in P.LiveCtxs(w'.pool)
            && w'.gates(GateOf(w.pool, a)).gate.busy && G.At(w'.gates(GateOf(w.pool, a)), t, G.Holding)
  {
    var g := GateOf(w.pool, a);
    var s1, s2 := Turn(g, G.Arrive(t, false, 0)), Lookup(b, now, true, a, made);
    var w1 := Apply(w, s1);
    FirstArrival(t);
    assert w1.pool == w.pool && w1.gates(g) == G.Apply(G.START, G.Arrive(t, false, 0)) by { hide G.Apply; }
    hide Run, G.Apply;
    OnlyOtherIsLRU(w.pool, a, b, now);
    assert P.LiveCtxs(w.pool) - {b} == {a};
    CapEvictionIgnoresTheGate(w1, s2, a);
    hide P.LookedUp, P.Possible, P.LiveCtxs;
    assert g !in InstalledGate(w1, s2);
    assert Apply(w1, s2).gates(g) == w1.gates(g);
  }

  /** So the reaper's promise does not extend to the cap. In a pool with room for one
      session: the first context is looked up and begins a turn, and the lookup of
      a second closes its session with the turn still holding the gate. */
  lemma CapEvictionCanCloseARunningTurn(cfg: P.Config, a: P.Ctx, b: P.Ctx, t: G.Ticket, made: P.Made)
    requires a != b && cfg.maxActive == 1 && cfg.policy.EvictLRU?
    ensures var steps := [Lookup(a, 1, true, "", P.Notifier)] + [Turn(GateId(a, 0), G.Arrive(t, false, 0))]
                         + [Lookup(b, 2, true, a, made)];
            var w := Run(Start(cfg), steps);
            && a !in P.LiveCtxs(w.pool)
            && w.gates(GateId(a, 0)).gate.busy && G.At(w.gates(GateId(a, 0)), t, G.Holding)
  {
    var s1, s2 := Lookup(a, 1, true, "", P.Notifier), Turn(GateId(a, 0), G.Arrive(t, false, 0));
    var w0 := Start(cfg);
    FirstLookup(cfg, a, 1);
    var w1 := Apply(w0, s1);
    assert GateOf(w1.pool, a) == GateId(a, 0);
    hide Apply;
    RunningTurnIsCutOff(w1, a, b, t, 2, made);
    assert Run(w0, []) == w0;
    RunSnoc(w0, [], s1);
    assert [] + [s1] == [s1];
    RunSnoc(w0, [s1], s2);
    RunSnoc(w0, [s1] + [s2], Lookup(b, 2, true, a, made));
  }

  lemma OnlyOtherIsLRU(p: P.Pool, a: P.Ctx, b: P.Ctx, now: P.Time)
    requires P.LiveCtxs(p) == {a} && a != b
    ensures P.IsLRU(P.Missed(p, b, now), b, a) && !P.Hits(p, b, true)
  {
    P.CheckedLive(p, b, now, a);
    assert b !in P.LiveCtxs(p);
    assert P.LiveCtxs(P.Missed(p, b, now)) == {a};
  }
}
