/** Lookups that run at once, lock by lock. */
module SessionCaps {
  import opened Options
  import P = SessionPools

  /** A slot is a pointer: it goes on existing for its holders when the pool has
      removed it, and a later slot of the same context is another one. */
  datatype Slot = Slot(c: P.Ctx, gen: nat)

  /** How far a lookup has come. It finds its slot, looks inside, takes a snapshot of
      the other slots, reads them one at a time (those in `left` to come, `active`
      sessions counted), decides, under evict-lru closes the session it settled on,
      and installs its own on the slot it found at the start. Between any two of these
      the others go on. */
  datatype Stage =
    | Found
    | Missed
    | Scanning(left: set<Slot>, active: nat, lru: Option<Slot>, lruUsed: P.Time)
    | Evicting(victim: Slot)
    | Ready

  /** A lookup reads the clock once, when it finds its slot. */
  datatype Caller = Caller(slot: Slot, now: P.Time, stage: Stage)

  /** `pending` are the lookups in progress, at most `callers` of them at a time,
      numbered as they start; `lost` the slots that reaps have removed. */
  datatype Race = Race(
    pool: P.Pool,
    pending: map<nat, Caller>,
    lost: map<Slot, P.Entry>,
    callers: nat,
    started: nat)

  function Begin(cfg: P.Config, callers: nat): Race {
    Race(P.NewPool(cfg), map[], map[], callers, 0)
  }

  // ----- Slots -----

  function SlotOf(p: P.Pool, c: P.Ctx): Slot
    requires c in p.entries
  {
    Slot(c, p.entries[c].gen)
  }

  /** The pool still has this slot under its context. */
  predicate Current(p: P.Pool, s: Slot) {
    s.c in p.entries && SlotOf(p, s.c) == s
  }

  function Slots(p: P.Pool): (slots: set<Slot>)
    ensures forall s :: s in slots <==> Current(p, s)
  {
    set c | c in p.entries :: SlotOf(p, c)
  }

  /** The slots of the pool that hold a session. */
  function Open(p: P.Pool): (open: set<Slot>)
    ensures forall s :: s in open <==> Current(p, s) && p.entries[s.c].Live()
  {
    set s | s in Slots(p) && p.entries[s.c].Live()
  }

  /** Sessions on slots the pool no longer has. */
  function Strays(r: Race): set<Slot> {
    set s | s in r.lost && r.lost[s].Live()
  }

  /** All provider sessions that are open. */
  function LiveSessions(r: Race): nat {
    |Open(r.pool)| + |Strays(r)|
  }

  predicate Exists(r: Race, s: Slot) {
    Current(r.pool, s) || s in r.lost
  }

  function At(r: Race, s: Slot): P.Entry
    requires Exists(r, s)
  {
    if Current(r.pool, s) then r.pool.entries[s.c] else r.lost[s]
  }

  predicate Live(r: Race, s: Slot) {
    Exists(r, s) && At(r, s).Live()
  }

  /** The lookups in progress and the configuration are untouched. */
  predicate SameCallers(r: Race, q: Race) {
    q.pending == r.pending && q.callers == r.callers && q.started == r.started && q.pool.cfg == r.pool.cfg
  }

  function Put(r: Race, s: Slot, e: P.Entry): (q: Race)
    ensures SameCallers(r, q)
  {
    if Current(r.pool, s) then r.(pool := r.pool.(entries := r.pool.entries[s.c := e]))
    else r.(lost := r.lost[s := e])
  }

  function Close(r: Race, s: Slot, now: P.Time): (q: Race)
    ensures SameCallers(r, q)
  {
    if Live(r, s) then Put(r, s, At(r, s).Evict(now)) else r
  }

  function Touch(r: Race, s: Slot, now: P.Time): (q: Race)
    ensures SameCallers(r, q)
  {
    if Live(r, s) then Put(r, s, At(r, s).(lastUsed := now)) else r
  }

  /** The pool is not asked whether it still has the slot. */
  function Install(r: Race, s: Slot, now: P.Time, made: P.Made): (q: Race)
    requires Exists(r, s) && !made.Fails?
    ensures SameCallers(r, q)
  {
    var q := P.Install(r.pool.(entries := r.pool.entries[s.c := At(r, s)]), s.c, now, made);
    Put(r.(pool := q.(entries := r.pool.entries)), s, q.entries[s.c])
  }

  // ----- Steps of a lookup -----

  datatype Step =
    | Find(c: P.Ctx, now: P.Time)
    | Look(me: nat, healthy: bool)
    | Snap(me: nat)
    | Read(me: nat, s: Slot)
    | Decide(me: nat)
    | Evict(me: nat, now: P.Time)
    | Commit(me: nat, healthy: bool, made: P.Made)
    | Other(step: P.Step)

  function Go(r: Race, me: nat, stage: Stage): Race
    requires me in r.pending
  {
    r.(pending := r.pending[me := r.pending[me].(stage := stage)])
  }

  function Leave(r: Race, me: nat): Race {
    r.(pending := r.pending - {me})
  }

  /** Under the pool's lock: the slot is there afterwards. */
  function Finds(r: Race, c: P.Ctx, now: P.Time): Race {
    if |r.pending| >= r.callers then r
    else
      var p := P.WithEntry(r.pool, c);
      r.(pool := p, pending := r.pending[r.started := Caller(SlotOf(p, c), now, Found)], started := r.started + 1)
  }

  /** Under the slot's lock: a hit, or no session that can be used. */
  function Looks(r: Race, me: nat, healthy: bool): Race
    requires me in r.pending
  {
    var k := r.pending[me];
    if Live(r, k.slot) && healthy then Leave(Touch(r, k.slot, k.now), me)
    else Go(Close(r, k.slot, k.now), me, if r.pool.cfg.maxActive > 0 then Missed else Ready)
  }

  /** Under the pool's lock again: the slots of the other contexts. */
  function Snaps(r: Race, me: nat): Race
    requires me in r.pending
  {
    var others := set s | s in Slots(r.pool) && s.c != r.pending[me].slot.c;
    Go(r, me, Scanning(others, 0, None, 0))
  }

  /** Under the lock of one of them, whether or not the pool still has it. */
  function Reads(r: Race, me: nat, s: Slot): Race
    requires me in r.pending && r.pending[me].stage.Scanning?
  {
    var k := r.pending[me].stage;
    if !Live(r, s) then Go(r, me, k.(left := k.left - {s}))
    else if k.lru.None? || At(r, s).lastUsed < k.lruUsed then
      Go(r, me, Scanning(k.left - {s}, k.active + 1, Some(s), At(r, s).lastUsed))
    else Go(r, me, k.(left := k.left - {s}, active := k.active + 1))
  }

  predicate Passes(cfg: P.Config, k: Stage)
    requires k.Scanning?
  {
    k.active < cfg.maxActive || (cfg.policy.EvictLRU? && k.lru.None?)
  }

  /** Under no lock. */
  function Decides(r: Race, me: nat): Race
    requires me in r.pending && r.pending[me].stage.Scanning?
  {
    var k := r.pending[me].stage;
    if Passes(r.pool.cfg, k) then Go(r, me, Ready)
    else if r.pool.cfg.policy.Reject? then Leave(r, me)
    else Go(r, me, Evicting(k.lru.value))
  }

  /** Under the victim's lock: it is closed unless that has happened already. */
  function Evicts(r: Race, me: nat, now: P.Time): Race
    requires me in r.pending && r.pending[me].stage.Evicting?
  {
    var v := r.pending[me].stage.victim;
    var q := Go(Close(r, v, now), me, Ready);
    if !Live(r, v) then q
    else
      q.(pool := q.pool.(shadow := q.pool.shadow[v.c := P.Rec(At(r, v).sessionID, false, At(r, v).lastUsed, now)]))
  }

  /** Under the slot's lock again: a hit after all, or a new session. */
  function Commits(r: Race, me: nat, healthy: bool, made: P.Made): Race
    requires me in r.pending
  {
    var k := r.pending[me];
    if Live(r, k.slot) && healthy then Leave(Touch(r, k.slot, k.now), me)
    else if made.Fails? || !Exists(r, k.slot) then Leave(Close(r, k.slot, k.now), me)
    else Leave(Install(Closed(r, k.slot, k.now), k.slot, k.now, made), me)
  }

  function Closed(r: Race, s: Slot, now: P.Time): (q: Race)
    requires Exists(r, s)
    ensures Exists(q, s)
  {
    Close(r, s, now)
  }

  /** Callbacks and reaps; what a reap removes lives on for whoever holds it. */
  function Quiet(r: Race, s: P.Step): Race {
    if s.DoLookup? || s.DoCrash? then r
    else
      var p := P.Apply(P.History(r.pool, map[]), s).pool;
      r.(pool := p, lost := if s.DoReap? then r.lost + Removed(r.pool, p, s.now) else r.lost)
  }

  /** The slots a reap takes from p to q; one that was live it has closed first. */
  function Removed(p: P.Pool, q: P.Pool, now: P.Time): map<Slot, P.Entry> {
    map x | x in Slots(p) && !Current(q, x) ::
      if p.entries[x.c].Live() then p.entries[x.c].Evict(now) else p.entries[x.c]
  }

  /** A lookup's steps come in its own order. */
  predicate Enabled(r: Race, step: Step) {
    match step
    case Find(_, _) => |r.pending| < r.callers
    case Look(me, _) => me in r.pending && r.pending[me].stage.Found?
    case Snap(me) => me in r.pending && r.pending[me].stage.Missed?
    case Read(me, s) => me in r.pending && r.pending[me].stage.Scanning? && s in r.pending[me].stage.left
    case Decide(me) => me in r.pending && r.pending[me].stage.Scanning? && r.pending[me].stage.left == {}
    case Evict(me, _) => me in r.pending && r.pending[me].stage.Evicting?
    case Commit(me, _, _) => me in r.pending && r.pending[me].stage.Ready?
    case Other(_) => true
  }

  function Apply(r: Race, step: Step): Race {
    if !Enabled(r, step) then r
    else
      match step
      case Find(c, now) => Finds(r, c, now)
      case Look(me, healthy) => Looks(r, me, healthy)
      case Snap(me) => Snaps(r, me)
      case Read(me, s) => Reads(r, me, s)
      case Decide(me) => Decides(r, me)
      case Evict(me, now) => Evicts(r, me, now)
      case Commit(me, healthy, made) => Commits(r, me, healthy, made)
      case Other(s) => Quiet(r, s)
  }

  function Run(r: Race, steps: seq<Step>): Race {
    if steps == [] then r else Apply(Run(r, steps[..|steps| - 1]), steps[|steps| - 1])
  }

  // ----- The ways past the cap -----

  /** An eviction that finds its victim no longer open in the pool. */
  predicate Misses(r: Race, step: Step) {
    step.Evict? && Enabled(r, step) && r.pending[step.me].stage.victim !in Open(r.pool)
  }

  /** A lookup passes without an eviction though the pool is full: the sessions it
      did not count were opened behind its scan. */
  predicate Overlooks(r: Race, step: Step) {
    && step.Decide? && Enabled(r, step) && Passes(r.pool.cfg, r.pending[step.me].stage)
    && |Open(r.pool)| >= r.pool.cfg.maxActive
  }

  /** A session is installed on a slot that a reap has removed. */
  predicate Strands(r: Race, step: Step) {
    && step.Commit? && Enabled(r, step) && !step.made.Fails?
    && !Current(r.pool, r.pending[step.me].slot) && Exists(r, r.pending[step.me].slot)
    && !(Live(r, r.pending[step.me].slot) && step.healthy)
  }

  /** How often each has happened. */
  datatype Tally = Tally(missed: nat, overlooked: nat, stranded: nat)

  function Count(t: Tally, r: Race, step: Step): Tally {
    Tally(t.missed + (if Misses(r, step) then 1 else 0),
          t.overlooked + (if Overlooks(r, step) then 1 else 0),
          t.stranded + (if Strands(r, step) then 1 else 0))
  }

  function TallyOf(r: Race, steps: seq<Step>): Tally {
    if steps == [] then Tally(0, 0, 0)
    else
      var prefix, last := steps[..|steps| - 1], steps[|steps| - 1];
      Count(TallyOf(r, prefix), Run(r, prefix), last)
  }

  // ----- What each step opens and closes -----

  lemma PutOpens(r: Race, s: Slot, e: P.Entry)
    requires Exists(r, s) && e.gen == At(r, s).gen
    ensures var q := Put(r, s, e);
            && (forall x :: Current(q.pool, x) <==> Current(r.pool, x))
            && Open(q.pool) == (if !Current(r.pool, s) then Open(r.pool) else if e.Live() then Open(r.pool) + {s}
                                else Open(r.pool) - {s})
            && Strays(q) == (if Current(r.pool, s) then Strays(r) else if e.Live() then Strays(r) + {s}
                             else Strays(r) - {s})
  {
    hide P.Entry.Live;
  }

  lemma CloseOpens(r: Race, s: Slot, now: P.Time)
    ensures var q := Close(r, s, now);
            && (forall x :: Current(q.pool, x) <==> Current(r.pool, x))
            && Open(q.pool) == Open(r.pool) - {s}
            && Strays(q) <= Strays(r)
  {
    if Live(r, s) { PutOpens(r, s, At(r, s).Evict(now)); }
  }

  lemma TouchOpens(r: Race, s: Slot, now: P.Time)
    ensures var q := Touch(r, s, now);
            && Open(q.pool) == Open(r.pool) && Strays(q) == Strays(r)
  {
    if Live(r, s) { PutOpens(r, s, At(r, s).(lastUsed := now)); }
  }

  lemma InstallOpens(r: Race, s: Slot, now: P.Time, made: P.Made)
    requires Exists(r, s) && !made.Fails?
    ensures var q := Install(r, s, now, made);
            && Open(q.pool) == (if Current(r.pool, s) then Open(r.pool) + {s} else Open(r.pool))
            && Strays(q) == (if Current(r.pool, s) then Strays(r) else Strays(r) + {s})
  {
    var p := P.Install(r.pool.(entries := r.pool.entries[s.c := At(r, s)]), s.c, now, made);
    var r0 := r.(pool := p.(entries := r.pool.entries));
    assert Open(r0.pool) == Open(r.pool) && Strays(r0) == Strays(r) && Current(r0.pool, s) == Current(r.pool, s);
    PutOpens(r0, s, p.entries[s.c]);
  }

  lemma QuietOpens(p: P.Pool, s: P.Step)
    requires !s.DoLookup? && !s.DoCrash?
    ensures var q := P.Apply(P.History(p, map[]), s).pool; Open(q) <= Open(p) && q.cfg == p.cfg
  {
    hide P.MayDrop;
  }

  lemma RemovedAreClosed(r: Race, q: P.Pool, now: P.Time)
    ensures Strays(r.(pool := q, lost := r.lost + Removed(r.pool, q, now))) <= Strays(r)
  {
    hide Current;
  }

  /** Nothing changes hands but what the step is about. */
  lemma StepOpens(r: Race, step: Step)
    ensures var q := Apply(r, step);
            && q.pool.cfg == r.pool.cfg && q.callers == r.callers
            && (!step.Commit? ==> Open(q.pool) <= Open(r.pool))
            && (step.Commit? && Enabled(r, step) ==> Open(q.pool) <= Open(r.pool) + {r.pending[step.me].slot})
            && (step.Commit? && Enabled(r, step) && r.pending[step.me].slot in Open(q.pool)
                ==> Current(r.pool, r.pending[step.me].slot))
            && (step.Evict? && Enabled(r, step) ==> Open(q.pool) <= Open(r.pool) - {r.pending[step.me].stage.victim})
            && (forall x :: x in Strays(q) ==>
                  x in Strays(r) || (Strands(r, step) && x == r.pending[step.me].slot))
  {
    if Enabled(r, step) {
      match step
      case Find(c, now) => assert Open(P.WithEntry(r.pool, c)) == Open(r.pool);
      case Look(me, healthy) =>
        CloseOpens(r, r.pending[me].slot, r.pending[me].now);
        TouchOpens(r, r.pending[me].slot, r.pending[me].now);
        hide Close, Touch;
      case Snap(_) =>
      case Read(_, _) =>
      case Decide(_) =>
      case Evict(me, now) =>
        EvictOpens(r, me, now);
      case Commit(me, healthy, made) =>
        CommitOpens(r, me, healthy, made);
      case Other(s) =>
        if !s.DoLookup? && !s.DoCrash? {
          QuietOpens(r.pool, s);
          hide P.Apply;
          RemovedAreClosed(r, P.Apply(P.History(r.pool, map[]), s).pool, if s.DoReap? then s.now else 0);
        }
    }
  }

  lemma EvictOpens(r: Race, me: nat, now: P.Time)
    requires me in r.pending && r.pending[me].stage.Evicting?
    ensures var q := Evicts(r, me, now);
            && Open(q.pool) == Open(r.pool) - {r.pending[me].stage.victim} && Strays(q) <= Strays(r)
            && q.pool.cfg == r.pool.cfg && q.callers == r.callers
  {
    CloseOpens(r, r.pending[me].stage.victim, now);
    hide Close;
  }

  lemma CommitOpens(r: Race, me: nat, healthy: bool, made: P.Made)
    requires me in r.pending && r.pending[me].stage.Ready?
    ensures var q, s := Commits(r, me, healthy, made), r.pending[me].slot;
            && Open(q.pool) <= Open(r.pool) + {s} && (s in Open(q.pool) ==> Current(r.pool, s))
            && (forall x :: x in Strays(q) ==> x in Strays(r) || (Strands(r, Commit(me, healthy, made)) && x == s))
            && q.pool.cfg == r.pool.cfg && q.callers == r.callers
  {
    var s, now := r.pending[me].slot, r.pending[me].now;
    TouchOpens(r, s, now);
    CloseOpens(r, s, now);
    if Exists(r, s) && !made.Fails? { InstallOpens(Closed(r, s, now), s, now, made); }
    hide Close, Touch, Install;
  }

  // ----- The bound under either policy -----

  function ReadyAmong(pending: map<nat, Caller>): set<nat> {
    set me | me in pending && pending[me].stage.Ready?
  }

  /** What is open in the pool or about to be stays within the bound and `over`, and
      there are at most `stranded` strays. */
  predicate Within(r: Race, over: nat, stranded: nat) {
    && r.pool.cfg.maxActive > 0 && |r.pending| <= r.callers
    && |Open(r.pool)| + |ReadyAmong(r.pending)| <= r.pool.cfg.maxActive - 1 + r.callers + over
    && |Strays(r)| <= stranded
  }

  lemma Moved(pending: map<nat, Caller>, me: nat, k: Caller)
    ensures |pending[me := k]| <= |pending| + (if me in pending then 0 else 1)
    ensures k.stage.Ready? ==> ReadyAmong(pending[me := k]) == ReadyAmong(pending) + {me}
    ensures !k.stage.Ready? ==> ReadyAmong(pending[me := k]) == ReadyAmong(pending) - {me}
  {
    var after := pending[me := k];
    forall x ensures x in ReadyAmong(after) <==> if x == me then k.stage.Ready? else x in ReadyAmong(pending) {
    }
    hide ReadyAmong;
    assert |after| <= |pending| + (if me in pending then 0 else 1) by {
      assert after.Keys == pending.Keys + {me};
      assert |after| == |after.Keys| && |pending| == |pending.Keys|;
    }
  }

  lemma Gone(pending: map<nat, Caller>, me: nat)
    ensures |pending - {me}| <= |pending| && ReadyAmong(pending - {me}) == ReadyAmong(pending) - {me}
  {
    assert (pending - {me}).Keys == pending.Keys - {me};
    assert |pending - {me}| == |(pending - {me}).Keys| && |pending| == |pending.Keys|;
    P.FewerFit(pending.Keys - {me}, pending.Keys);
  }

  /** What a step makes of the lookup that takes it. */
  function After(r: Race, step: Step): Option<Caller>
    requires Enabled(r, step) && !step.Other?
  {
    if step.Find? then Some(Caller(SlotOf(P.WithEntry(r.pool, step.c), step.c), step.now, Found))
    else
      var k := r.pending[step.me];
      match step
      case Look(_, healthy) =>
        if Live(r, k.slot) && healthy then None
        else Some(k.(stage := if r.pool.cfg.maxActive > 0 then Missed else Ready))
      case Snap(me) => Some(Snaps(r, me).pending[me])
      case Read(me, s) => Some(Reads(r, me, s).pending[me])
      case Decide(me) =>
        if Passes(r.pool.cfg, k.stage) then Some(k.(stage := Ready))
        else if r.pool.cfg.policy.Reject? then None
        else Some(k.(stage := Evicting(k.stage.lru.value)))
      case Evict(_, _) => Some(k.(stage := Ready))
      case Commit(_, _, _) => None
  }

  /** The lookups in progress after a step. */
  lemma StepPending(r: Race, step: Step)
    requires Enabled(r, step)
    ensures var pending, q := r.pending, Apply(r, step);
            if step.Other? then q.pending == pending
            else
              var me := if step.Find? then r.started else step.me;
              match After(r, step)
              case None => q.pending == pending - {me}
              case Some(k) => q.pending == pending[me := k]
    ensures Apply(r, step).started == r.started + (if step.Find? then 1 else 0)
  {
    hide P.WithEntry, Current, Close, Touch, Install;
  }

  lemma ReadyFit(pending: map<nat, Caller>)
    ensures |ReadyAmong(pending)| <= |pending|
  {
    assert |pending| == |pending.Keys|;
    P.FewerFit(ReadyAmong(pending), pending.Keys);
  }

  /** The same in numbers. */
  lemma StepCounts(r: Race, step: Step)
    requires Enabled(r, step) && r.pool.cfg.maxActive > 0 && |r.pending| <= r.callers
    ensures var before, after := |ReadyAmong(r.pending)|, |ReadyAmong(Apply(r, step).pending)|;
            && |Apply(r, step).pending| <= r.callers
            && after <= before + (if step.Decide? || step.Evict? then 1 else 0)
            && (step.Decide? && !Passes(r.pool.cfg, r.pending[step.me].stage) ==> after <= before)
            && (step.Commit? ==> after == before - 1)
  {
    StepPending(r, step);
    hide ReadyAmong, Apply;
    var ready, q := ReadyAmong(r.pending), Apply(r, step);
    if !step.Other? {
      var me := if step.Find? then r.started else step.me;
      match After(r, step)
      case None => Gone(r.pending, me);
      case Some(k) => Moved(r.pending, me, k);
      assert step.Commit? ==> me in ready by { ReadyIs(r.pending, me); }
      P.FewerFit(ready - {me}, ready);
    }
  }

  lemma ReadyIs(pending: map<nat, Caller>, me: nat)
    ensures me in ReadyAmong(pending) <==> me in pending && pending[me].stage.Ready?
  {
  }

  lemma StepKeepsWithin(r: Race, step: Step, over: nat, stranded: nat)
    requires Within(r, over, stranded)
    ensures Within(Apply(r, step), over + (if Misses(r, step) || Overlooks(r, step) then 1 else 0),
                   stranded + (if Strands(r, step) then 1 else 0))
  {
    hide Open, Strays, ReadyAmong, Passes;
    if Enabled(r, step) {
      StepOpens(r, step);
      StepCounts(r, step);
      hide Apply, Strands;
      var q := Apply(r, step);
      var open, ready := Open(r.pool), ReadyAmong(r.pending);
      ReadyFit(q.pending);
      P.FewerFit(Strays(q), if Strands(r, step) then Strays(r) + {r.pending[step.me].slot} else Strays(r));
      if step.Commit? {
        P.FewerFit(Open(q.pool), open + {r.pending[step.me].slot});
      } else if step.Evict? {
        P.FewerFit(Open(q.pool), open - {r.pending[step.me].stage.victim});
      } else {
        P.FewerFit(Open(q.pool), open);
      }
    }
  }

  lemma BeginWithin(cfg: P.Config, callers: nat)
    requires cfg.maxActive > 0
    ensures Within(Begin(cfg, callers), 0, 0)
  {
    assert Open(P.NewPool(cfg)) == {};
  }

  /** In every interleaving: sessions of the pool, with those about to be, and
      strays, each within its own bound. */
  lemma {:induction false} EveryRunWithin(cfg: P.Config, callers: nat, steps: seq<Step>)
    requires cfg.maxActive > 0
    ensures var r, t := Run(Begin(cfg, callers), steps), TallyOf(Begin(cfg, callers), steps);
            Within(r, t.missed + t.overlooked, t.stranded) && r.callers == callers && r.pool.cfg == cfg
  {
    hide Apply, Within, Misses, Overlooks, Strands;
    var start := Begin(cfg, callers);
    if steps == [] {
      BeginWithin(cfg, callers);
    } else {
      var prefix, last := steps[..|steps| - 1], steps[|steps| - 1];
      EveryRunWithin(cfg, callers, prefix);
      var r, t := Run(start, prefix), TallyOf(start, prefix);
      StepKeepsWithin(r, last, t.missed + t.overlooked, t.stranded);
      StepOpens(r, last);
      OneSlipAtATime(r, last);
    }
  }

  lemma OneSlipAtATime(r: Race, step: Step)
    ensures !(Misses(r, step) && Overlooks(r, step))
  {
  }

  /** In every interleaving of any lookups, callbacks and reaps, under either policy:
      with at most N lookups in progress at a time, the open sessions exceed
      max_active - 1 + N by no more than the number of evictions that found their
      victim gone, of lookups that passed a full pool and of installations on
      removed slots. */
  lemma OverrunIsBounded(cfg: P.Config, callers: nat, steps: seq<Step>)
    requires cfg.maxActive > 0
    ensures var t := TallyOf(Begin(cfg, callers), steps);
            LiveSessions(Run(Begin(cfg, callers), steps)) <=
              cfg.maxActive - 1 + callers + t.missed + t.overlooked + t.stranded
  {
    hide Run, TallyOf, Open, Strays, ReadyAmong, Begin;
    EveryRunWithin(cfg, callers, steps);
  }

  // ----- What counts as a use -----

  /** The session a step hands to its caller, or on which a turn ends, and when; a
      lookup counts from the time it began. */
  function Used(r: Race, step: Step): Option<(Slot, P.Time)> {
    match step
    case Look(me, healthy) =>
      if Enabled(r, step) && Live(r, r.pending[me].slot) && healthy then Some((r.pending[me].slot, r.pending[me].now))
      else None
    case Commit(me, healthy, made) =>
      if Enabled(r, step) && Exists(r, r.pending[me].slot)
         && ((Live(r, r.pending[me].slot) && healthy) || !made.Fails?)
      then Some((r.pending[me].slot, r.pending[me].now))
      else None
    case Other(DoTurnFinished(c, owner, now)) =>
      if c in r.pool.entries && r.pool.entries[c].Live() && r.pool.entries[c].session == Some(owner)
      then Some((SlotOf(r.pool, c), now))
      else None
    case _ => None
  }

  function With(uses: map<Slot, P.Time>, use: Option<(Slot, P.Time)>): map<Slot, P.Time> {
    if use.Some? then uses[use.value.0 := use.value.1] else uses
  }

  /** When the session of each slot was used last, read off the steps. */
  function LastUses(r: Race, steps: seq<Step>): map<Slot, P.Time> {
    if steps == [] then map[]
    else
      var prefix, last := steps[..|steps| - 1], steps[|steps| - 1];
      With(LastUses(r, prefix), Used(Run(r, prefix), last))
  }

  /** The field the scans and the reaper go by tells the last use of every session. */
  ghost predicate Dated(r: Race, uses: map<Slot, P.Time>) {
    forall s :: Live(r, s) ==> s in uses && At(r, s).lastUsed == uses[s]
  }

  lemma PutDates(r: Race, s: Slot, e: P.Entry, uses: map<Slot, P.Time>)
    requires Dated(r, uses) && Exists(r, s) && e.gen == At(r, s).gen
    ensures !e.Live() ==> Dated(Put(r, s, e), uses)
    ensures Dated(Put(r, s, e), uses[s := e.lastUsed])
  {
    hide P.Entry.Live;
  }

  lemma CloseDates(r: Race, s: Slot, now: P.Time, uses: map<Slot, P.Time>)
    requires Dated(r, uses)
    ensures Dated(Close(r, s, now), uses)
  {
    if Live(r, s) { PutDates(r, s, At(r, s).Evict(now), uses); }
    hide Dated;
  }

  lemma TouchDates(r: Race, s: Slot, now: P.Time, uses: map<Slot, P.Time>)
    requires Dated(r, uses) && Live(r, s)
    ensures Dated(Touch(r, s, now), uses[s := now])
  {
    PutDates(r, s, At(r, s).(lastUsed := now), uses);
    hide Dated;
  }

  lemma InstallDates(r: Race, s: Slot, now: P.Time, made: P.Made, uses: map<Slot, P.Time>)
    requires Dated(r, uses) && Exists(r, s) && !made.Fails?
    ensures Dated(Install(r, s, now, made), uses[s := now])
  {
    var p := P.Install(r.pool.(entries := r.pool.entries[s.c := At(r, s)]), s.c, now, made);
    var r0 := r.(pool := p.(entries := r.pool.entries));
    SamePlaces(r, r0, uses);
    PutDates(r0, s, p.entries[s.c], uses);
    hide Dated, Put;
  }

  /** Who is under way makes no difference. */
  lemma SamePlaces(r: Race, q: Race, uses: map<Slot, P.Time>)
    requires Dated(r, uses) && q.pool.entries == r.pool.entries && q.lost == r.lost
    ensures Dated(q, uses)
  {
    assert forall s :: Live(q, s) ==> Live(r, s) && At(q, s) == At(r, s);
  }

  lemma FindDates(r: Race, c: P.Ctx, now: P.Time, uses: map<Slot, P.Time>)
    requires Dated(r, uses)
    ensures Dated(Finds(r, c, now), uses)
  {
    var q := Finds(r, c, now);
    assert forall s :: Live(q, s) ==> Live(r, s) && At(q, s) == At(r, s);
  }

  lemma LookDates(r: Race, step: Step, uses: map<Slot, P.Time>)
    requires Dated(r, uses) && step.Look? && Enabled(r, step)
    ensures Dated(Apply(r, step), With(uses, Used(r, step)))
  {
    var me, k := step.me, r.pending[step.me];
    if Live(r, k.slot) && step.healthy {
      TouchDates(r, k.slot, k.now, uses);
      SamePlaces(Touch(r, k.slot, k.now), Apply(r, step), uses[k.slot := k.now]);
    } else {
      CloseDates(r, k.slot, k.now, uses);
      SamePlaces(Close(r, k.slot, k.now), Apply(r, step), uses);
    }
    hide Dated, Touch, Close;
  }

  lemma CommitDates(r: Race, step: Step, uses: map<Slot, P.Time>)
    requires Dated(r, uses) && step.Commit? && Enabled(r, step)
    ensures Dated(Apply(r, step), With(uses, Used(r, step)))
  {
    var me, k := step.me, r.pending[step.me];
    if Live(r, k.slot) && step.healthy {
      TouchDates(r, k.slot, k.now, uses);
      SamePlaces(Touch(r, k.slot, k.now), Apply(r, step), uses[k.slot := k.now]);
    } else {
      CloseDates(r, k.slot, k.now, uses);
      var closed := Close(r, k.slot, k.now);
      if step.made.Fails? || !Exists(r, k.slot) {
        SamePlaces(closed, Apply(r, step), uses);
      } else {
        InstallDates(closed, k.slot, k.now, step.made, uses);
        SamePlaces(Install(closed, k.slot, k.now, step.made), Apply(r, step), uses[k.slot := k.now]);
      }
    }
    hide Dated, Touch, Close, Install;
  }

  lemma ReapLeavesDates(r: Race, st: P.Step, s: Slot)
    requires st.DoReap? && Live(Quiet(r, st), s)
    ensures Live(r, s) && At(Quiet(r, st), s).lastUsed == At(r, s).lastUsed
  {
    hide P.MayDrop;
    var q := Quiet(r, st);
    if Current(q.pool, s) {
      assert Current(r.pool, s);
    } else {
      assert s !in Removed(r.pool, q.pool, st.now);
    }
  }

  lemma ReapDates(r: Race, st: P.Step, uses: map<Slot, P.Time>)
    requires Dated(r, uses) && st.DoReap?
    ensures Dated(Quiet(r, st), uses)
  {
    hide Quiet;
    forall s | Live(Quiet(r, st), s) ensures s in uses && At(Quiet(r, st), s).lastUsed == uses[s] {
      ReapLeavesDates(r, st, s);
    }
  }

  lemma CallbackDates(r: Race, st: P.Step, uses: map<Slot, P.Time>)
    requires Dated(r, uses) && (st.DoIDKnown? || st.DoTurnFinished?)
    ensures Dated(Quiet(r, st), With(uses, Used(r, Other(st))))
  {
    var q := Quiet(r, st);
    assert forall s :: Current(q.pool, s) <==> Current(r.pool, s);
    forall s | Live(q, s) && s.c != st.c ensures Live(r, s) && At(q, s) == At(r, s) { }
    forall s | Live(q, s) && s.c == st.c ensures Live(r, s) { }
  }

  lemma StepDates(r: Race, step: Step, uses: map<Slot, P.Time>)
    requires Dated(r, uses)
    ensures Dated(Apply(r, step), With(uses, Used(r, step)))
  {
    hide Dated;
    if Enabled(r, step) {
      hide Quiet, Finds;
      match step
      case Find(c, now) => FindDates(r, c, now, uses);
      case Look(_, _) => LookDates(r, step, uses);
      case Evict(me, now) =>
        CloseDates(r, r.pending[me].stage.victim, now, uses);
        SamePlaces(Close(r, r.pending[me].stage.victim, now), Apply(r, step), uses);
      case Commit(_, _, _) => CommitDates(r, step, uses);
      case Other(st) => QuietDates(r, st, uses);
      case _ => SamePlaces(r, Apply(r, step), uses);
    }
  }

  lemma QuietDates(r: Race, st: P.Step, uses: map<Slot, P.Time>)
    requires Dated(r, uses)
    ensures Dated(Quiet(r, st), With(uses, Used(r, Other(st))))
  {
    if st.DoReap? {
      ReapDates(r, st, uses);
    } else if st.DoIDKnown? || st.DoTurnFinished? {
      CallbackDates(r, st, uses);
    }
    hide Dated;
  }

  /** In every interleaving: a hit counts as a use like an installation or a finished
      turn does, on a slot of the pool and on one it has removed. */
  lemma {:induction false} EveryRunDates(cfg: P.Config, callers: nat, steps: seq<Step>)
    ensures Dated(Run(Begin(cfg, callers), steps), LastUses(Begin(cfg, callers), steps))
  {
    hide Apply, Used;
    if steps != [] {
      hide Dated;
      var prefix := steps[..|steps| - 1];
      EveryRunDates(cfg, callers, prefix);
      StepDates(Run(Begin(cfg, callers), prefix), steps[|steps| - 1], LastUses(Begin(cfg, callers), prefix));
    }
  }

  // ----- What a scan settles on -----

  /** The sessions lookup `me` has found open so far, each with the time of its last use
      when the scan came by, read off the steps. */
  function Sighted(r: Race, steps: seq<Step>, me: nat): map<Slot, P.Time> {
    if steps == [] then map[]
    else
      var prefix := steps[..|steps| - 1];
      AlsoSighted(Run(r, prefix), steps[|steps| - 1], me, LastUses(r, prefix), Sighted(r, prefix, me))
  }

  function AlsoSighted(r: Race, step: Step, me: nat, uses: map<Slot, P.Time>, seen: map<Slot, P.Time>)
    : map<Slot, P.Time>
  {
    if step.Read? && step.me == me && Enabled(r, step) && Live(r, step.s) && step.s in uses
    then seen[step.s := uses[step.s]]
    else seen
  }

  predicate UsedFirst(seen: map<Slot, P.Time>, v: Slot) {
    v in seen && forall s :: s in seen ==> seen[v] <= seen[s]
  }

  /** The stage of a lookup sums up what it has seen. */
  predicate Tracks(cfg: P.Config, stage: Stage, seen: map<Slot, P.Time>) {
    match stage
    case Scanning(left, active, lru, lruUsed) =>
      && active == |seen| && seen.Keys !! left
      && (if lru.None? then seen == map[] else UsedFirst(seen, lru.value) && lruUsed == seen[lru.value])
    case Evicting(v) => UsedFirst(seen, v) && |seen| >= cfg.maxActive
    case Ready => true
    case _ => seen == map[]
  }

  predicate Tracked(cfg: P.Config, r: Race, me: nat, seen: map<Slot, P.Time>) {
    && r.pool.cfg == cfg
    && (me >= r.started ==> me !in r.pending && seen == map[])
    && (me in r.pending ==> Tracks(cfg, r.pending[me].stage, seen))
  }

  lemma ReadTracks(cfg: P.Config, r: Race, me: nat, s: Slot, uses: map<Slot, P.Time>, seen: map<Slot, P.Time>)
    requires Dated(r, uses) && Enabled(r, Read(me, s)) && Tracks(cfg, r.pending[me].stage, seen)
    ensures Tracks(cfg, Reads(r, me, s).pending[me].stage, AlsoSighted(r, Read(me, s), me, uses, seen))
  {
    var after := AlsoSighted(r, Read(me, s), me, uses, seen);
    if Live(r, s) {
      assert after == seen[s := uses[s]] && s !in seen;
      assert after.Keys == seen.Keys + {s};
      assert |after| == |after.Keys| && |seen| == |seen.Keys|;
    }
  }

  lemma StepKeepsConfig(r: Race, step: Step)
    ensures Apply(r, step).pool.cfg == r.pool.cfg
  {
    hide Live, Current, Removed;
  }

  lemma StaysPut(r: Race, step: Step)
    requires !Enabled(r, step)
    ensures Apply(r, step) == r
  {
    hide Enabled;
  }

  lemma StepTracks(cfg: P.Config, r: Race, step: Step, me: nat, uses: map<Slot, P.Time>, seen: map<Slot, P.Time>)
    requires Dated(r, uses) && Tracked(cfg, r, me, seen)
    ensures Tracked(cfg, Apply(r, step), me, AlsoSighted(r, step, me, uses, seen))
  {
    hide Apply, Dated, Live, P.WithEntry, UsedFirst;
    StepKeepsConfig(r, step);
    if !Enabled(r, step) {
      StaysPut(r, step);
    } else {
      StepPending(r, step);
      if step.Read? && step.me == me {
        ReadTracks(cfg, r, me, step.s, uses, seen);
        hide Tracks, AlsoSighted;
      }
    }
  }

  /** In every interleaving a lookup counts the sessions it finds open, and of these
      it holds on to one whose last use lies furthest back. */
  lemma {:induction false} EveryScanTracks(cfg: P.Config, callers: nat, steps: seq<Step>, me: nat)
    ensures var r := Begin(cfg, callers);
            Tracked(cfg, Run(r, steps), me, Sighted(r, steps, me))
  {
    hide Apply, Tracks, AlsoSighted;
    var r := Begin(cfg, callers);
    if steps != [] {
      hide Dated, Tracked;
      var prefix := steps[..|steps| - 1];
      EveryScanTracks(cfg, callers, prefix, me);
      EveryRunDates(cfg, callers, prefix);
      StepTracks(cfg, Run(r, prefix), steps[|steps| - 1], me, LastUses(r, prefix), Sighted(r, prefix, me));
    }
  }

  /** Whatever others do in the meantime: the session a lookup goes to evict is one
      whose last use, when the scan read it, was before that of every other session
      the scan read or at the same time, and the scan read as many as the cap allows. */
  lemma VictimIsLeastRecentlyUsed(cfg: P.Config, callers: nat, steps: seq<Step>, me: nat, now: P.Time)
    requires Enabled(Run(Begin(cfg, callers), steps), Evict(me, now))
    ensures var r := Begin(cfg, callers);
            var v, seen := Run(r, steps).pending[me].stage.victim, Sighted(r, steps, me);
            v in seen && |seen| >= cfg.maxActive && forall s :: s in seen ==> seen[v] <= seen[s]
  {
    EveryScanTracks(cfg, callers, steps, me);
    hide Run, Sighted;
  }

  // ----- A stray session stays -----

  predicate Holds(k: Caller, s: Slot) {
    || k.slot == s
    || (k.stage.Scanning? && (s in k.stage.left || k.stage.lru == Some(s)))
    || (k.stage.Evicting? && k.stage.victim == s)
  }

  /** A stray nobody points at any more. */
  predicate Abandoned(r: Race, s: Slot) {
    && s in Strays(r) && !Current(r.pool, s) && s.gen < r.pool.nextGen
    && forall me :: me in r.pending ==> !Holds(r.pending[me], s)
  }

  /** The slot s is as it was. */
  predicate Untouched(r: Race, q: Race, s: Slot) {
    && s in r.lost && s in q.lost && q.lost[s] == r.lost[s]
    && !Current(q.pool, s) && q.pool.nextGen == r.pool.nextGen
  }

  lemma PutLeaves(r: Race, x: Slot, e: P.Entry, s: Slot)
    requires s in r.lost && !Current(r.pool, s) && x != s && Exists(r, x) && e.gen == At(r, x).gen
    ensures Untouched(r, Put(r, x, e), s)
  {
  }

  lemma OthersLeave(r: Race, x: Slot, now: P.Time, made: P.Made, s: Slot)
    requires s in r.lost && !Current(r.pool, s) && x != s
    ensures Untouched(r, Close(r, x, now), s) && Untouched(r, Touch(r, x, now), s)
    ensures Exists(r, x) && !made.Fails? ==> Untouched(r, Install(Closed(r, x, now), x, now, made), s)
  {
    if Live(r, x) {
      PutLeaves(r, x, At(r, x).Evict(now), s);
      PutLeaves(r, x, At(r, x).(lastUsed := now), s);
    }
    if Exists(r, x) && !made.Fails? {
      var q := Closed(r, x, now);
      hide Put;
      var p := P.Install(q.pool.(entries := q.pool.entries[x.c := At(q, x)]), x.c, now, made);
      PutLeaves(q.(pool := p.(entries := q.pool.entries)), x, p.entries[x.c], s);
    }
  }

  lemma QuietLeaves(r: Race, st: P.Step, s: Slot)
    requires s in r.lost && !Current(r.pool, s)
    ensures Untouched(r, Quiet(r, st), s)
  {
    hide P.MayDrop;
  }

  /** Slots a step takes up are ones the pool has or the lookup holds. */
  lemma AfterHolds(r: Race, step: Step, s: Slot)
    requires Enabled(r, step) && !step.Other? && !Current(r.pool, s) && s.gen < r.pool.nextGen
    requires !step.Find? ==> !Holds(r.pending[step.me], s)
    ensures After(r, step).Some? ==> !Holds(After(r, step).value, s)
  {
    hide Live;
  }

  lemma StepKeepsAbandoned(r: Race, step: Step, s: Slot)
    requires Abandoned(r, s)
    ensures Abandoned(Apply(r, step), s)
  {
    if Enabled(r, step) {
      var q := Apply(r, step);
      StepPending(r, step);
      assert s in q.lost && q.lost[s] == r.lost[s] && !Current(q.pool, s) && s.gen < q.pool.nextGen by {
        hide Close, Touch, Install, Quiet;
        if step.Other? {
          QuietLeaves(r, step.step, s);
        } else if step.Evict? {
          OthersLeave(r, r.pending[step.me].stage.victim, step.now, P.Fails, s);
        } else if step.Look? || step.Commit? {
          var k := r.pending[step.me];
          OthersLeave(r, k.slot, k.now, if step.Commit? then step.made else P.Fails, s);
        }
      }
      if !step.Other? { AfterHolds(r, step, s); }
      hide Apply, After, Current, Holds;
    }
  }

  /** A session installed on a removed slot is out of the pool's reach: whatever
      lookups, callbacks and reaps follow, it stays open and uncounted. */
  lemma {:induction false} StrayStaysOpen(r: Race, steps: seq<Step>, s: Slot)
    requires Abandoned(r, s)
    ensures Abandoned(Run(r, steps), s)
  {
    hide Apply, Abandoned;
    if steps != [] {
      var prefix := steps[..|steps| - 1];
      StrayStaysOpen(r, prefix, s);
      StepKeepsAbandoned(Run(r, prefix), steps[|steps| - 1], s);
    }
  }
}
