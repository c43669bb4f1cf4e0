/** Runs of racing lookups that reach the bounds on open sessions, and runs that pass
    them, each of any length: as many lookups as are allowed pass together; two settle
    on one victim; a scan misses what is replaced under it; a reap removes the slot a
    lookup holds. In all of them the clock only goes forward. */
module CapRuns {
  import D = Decimal
  import opened Options
  import opened SessionCaps
  import P = SessionPools

  // ----- Traces -----

  /** The clock a step reads. */
  function ClockOf(step: Step): Option<P.Time> {
    match step
    case Find(_, now) => Some(now)
    case Evict(_, now) => Some(now)
    case Other(DoTurnFinished(_, _, now)) => Some(now)
    case Other(DoReap(now, _, _)) => Some(now)
    case _ => None
  }

  /** The clock never goes back, and ends no later than t. */
  predicate Forward(steps: seq<Step>, t: P.Time) {
    if steps == [] then true
    else
      var prefix, clock := steps[..|steps| - 1], ClockOf(steps[|steps| - 1]);
      match clock
      case None => Forward(prefix, t)
      case Some(now) => now <= t && Forward(prefix, now)
  }

  lemma {:induction false} ForwardUntilLater(steps: seq<Step>, t: P.Time, u: P.Time)
    requires Forward(steps, t) && t <= u
    ensures Forward(steps, u)
  {
    if steps != [] && ClockOf(steps[|steps| - 1]).None? { ForwardUntilLater(steps[..|steps| - 1], t, u); }
  }

  /** A lookup is past the cap check. */
  predicate Past(r: Race, me: nat) {
    me in r.pending && (r.pending[me].stage.Evicting? || r.pending[me].stage.Ready?)
  }

  ghost predicate OnePast(r: Race) {
    forall a, b :: Past(r, a) && Past(r, b) ==> a == b
  }

  /** Never is more than one lookup past the check. */
  ghost predicate OnePastThroughout(r: Race, steps: seq<Step>) {
    OnePast(Run(r, steps)) && (steps != [] ==> OnePastThroughout(r, steps[..|steps| - 1]))
  }

  /** A run with what is known of it; `single` says that never more than one lookup
      was past the check. */
  datatype Trace = Trace(start: Race, steps: seq<Step>, race: Race, tally: Tally, at: P.Time, single: bool)

  ghost predicate Valid(tr: Trace) {
    && Run(tr.start, tr.steps) == tr.race && TallyOf(tr.start, tr.steps) == tr.tally
    && Forward(tr.steps, tr.at) && (tr.single ==> OnePastThroughout(tr.start, tr.steps))
  }

  ghost function Extend(tr: Trace, step: Step): Trace {
    var r := Apply(tr.race, step);
    Trace(tr.start, tr.steps + [step], r, Count(tr.tally, tr.race, step),
          if ClockOf(step).Some? then ClockOf(step).value else tr.at, tr.single && OnePast(r))
  }

  lemma Extends(tr: Trace, step: Step)
    requires Valid(tr) && (ClockOf(step).Some? ==> ClockOf(step).value >= tr.at)
    ensures Valid(Extend(tr, step))
    ensures tr.single ==> OnePast(tr.race)
  {
    assert (tr.steps + [step])[..|tr.steps|] == tr.steps;
    hide Apply, Count, OnePast;
    if ClockOf(step).Some? { ForwardUntilLater(tr.steps, tr.at, ClockOf(step).value); }
  }

  /** The step slips through none of the ways past the cap. */
  predicate Clean(r: Race, step: Step) {
    !Misses(r, step) && !Overlooks(r, step) && !Strands(r, step)
  }

  /** Nothing but steps and state have changed, and the clock to t. */
  predicate Follows(tr: Trace, tr': Trace, t: P.Time) {
    tr'.start == tr.start && tr'.tally == tr.tally && tr'.at == t
  }

  lemma Take(tr: Trace, step: Step, r: Race) returns (tr': Trace)
    requires Valid(tr) && Apply(tr.race, step) == r && Clean(tr.race, step)
    requires ClockOf(step).Some? ==> ClockOf(step).value >= tr.at
    ensures Valid(tr') && tr'.race == r && (tr.single && OnePast(r) ==> tr'.single)
    ensures Follows(tr, tr', if ClockOf(step).Some? then ClockOf(step).value else tr.at)
    ensures tr.single ==> OnePast(tr.race)
  {
    hide Valid, Apply, OnePast, Misses, Overlooks, Strands;
    Extends(tr, step);
    tr' := Extend(tr, step);
  }

  // ----- A lookup nobody disturbs -----

  predicate Scans(r: Race, me: nat) {
    me in r.pending && r.pending[me].stage.Scanning?
  }

  function LiveIn(r: Race, slots: set<Slot>): set<Slot> {
    set s | s in slots && Live(r, s)
  }

  /** The scan has settled on a session, and none of these is older. */
  predicate Settled(r: Race, k: Stage, slots: set<Slot>) {
    k.Scanning? && k.lru.Some? && forall s :: s in slots && Live(r, s) ==> At(r, s).lastUsed >= k.lruUsed
  }

  lemma OneRead(r: Race, me: nat, s: Slot)
    requires Scans(r, me) && s in r.pending[me].stage.left
    ensures var k, k' := r.pending[me].stage, Reads(r, me, s).pending[me].stage;
            && Reads(r, me, s) == Go(r, me, k') && k'.Scanning? && k'.left == k.left - {s}
            && k'.active + |LiveIn(r, k'.left)| == k.active + |LiveIn(r, k.left)|
            && (Settled(r, k, k.left) ==> k'.lru == k.lru && Settled(r, k', k'.left))
  {
    var k := r.pending[me].stage;
    assert LiveIn(r, k.left - {s}) == LiveIn(r, k.left) - {s};
    hide Live, At;
  }

  /** A lookup that moves without passing. */
  lemma GoOn(r: Race, me: nat, k: Stage)
    requires me in r.pending && !k.Evicting? && !k.Ready?
    ensures OnePast(r) ==> OnePast(Go(r, me, k))
    ensures forall k' :: Go(Go(r, me, k), me, k') == Go(r, me, k')
    ensures forall slots :: LiveIn(Go(r, me, k), slots) == LiveIn(r, slots)
    ensures forall k', slots :: Settled(Go(r, me, k), k', slots) == Settled(r, k', slots)
  {
    forall k' ensures Go(Go(r, me, k), me, k') == Go(r, me, k') {
      assert r.pending[me := r.pending[me].(stage := k)][me := r.pending[me].(stage := k')] ==
             r.pending[me := r.pending[me].(stage := k')];
    }
    assert forall id :: Past(Go(r, me, k), id) ==> Past(r, id);
    assert forall slots :: LiveIn(Go(r, me, k), slots) == LiveIn(r, slots);
  }

  lemma {:induction false} ReadRest(tr: Trace, me: nat) returns (tr': Trace)
    requires Valid(tr) && Scans(tr.race, me)
    ensures Valid(tr') && Follows(tr, tr', tr.at) && (tr.single ==> tr'.single) && Scans(tr'.race, me)
    ensures var k, k' := tr.race.pending[me].stage, tr'.race.pending[me].stage;
            && tr'.race == Go(tr.race, me, k') && k'.left == {} && k'.active == k.active + |LiveIn(tr.race, k.left)|
            && (Settled(tr.race, k, k.left) ==> k'.lru == k.lru)
    decreases tr.race.pending[me].stage.left
  {
    var r := tr.race;
    var k := r.pending[me].stage;
    if k.left == {} {
      tr' := tr;
      assert LiveIn(r, {}) == {};
    } else {
      var s :| s in k.left;
      OneRead(r, me, s);
      var q := Reads(r, me, s);
      var next := Take(tr, Read(me, s), q);
      GoOn(r, me, q.pending[me].stage);
      hide Valid, Reads, OnePast, Go, Settled, LiveIn;
      tr' := ReadRest(next, me);
    }
  }

  /** A lookup may come, and finds no session under its name. */
  predicate MayJoin(r: Race, c: P.Ctx) {
    && |r.pending| < r.callers && r.started !in r.pending && r.pool.cfg.maxActive > 0
    && !(c in r.pool.entries && r.pool.entries[c].Live())
  }

  /** It has come to stage k, and nobody else has moved. */
  function Joined(r: Race, c: P.Ctx, now: P.Time, k: Stage): Race {
    var p := P.WithEntry(r.pool, c);
    r.(pool := p, pending := r.pending[r.started := Caller(SlotOf(p, c), now, k)], started := r.started + 1)
  }

  function Others(p: P.Pool, c: P.Ctx): set<Slot> {
    set s | s in Slots(p) && s.c != c
  }

  lemma JoinedGoes(r: Race, c: P.Ctx, now: P.Time, k: Stage, k': Stage)
    requires MayJoin(r, c)
    ensures Go(Joined(r, c, now, k), r.started, k') == Joined(r, c, now, k')
    ensures OnePast(r) && !k.Evicting? && !k.Ready? ==> OnePast(Joined(r, c, now, k))
    ensures Open(Joined(r, c, now, k).pool) == Open(r.pool)
    ensures LiveIn(Joined(r, c, now, k), Others(P.WithEntry(r.pool, c), c)) == Open(r.pool)
  {
    var q := Joined(r, c, now, k);
    assert Go(q, r.started, k').pending == Joined(r, c, now, k').pending;
    assert forall id :: id != r.started ==> (Past(q, id) <==> Past(r, id));
    assert Open(q.pool) == Open(r.pool);
    assert forall x :: x in LiveIn(q, Others(q.pool, c)) <==> x in Open(q.pool);
  }

  lemma ArriveSteps(r: Race, c: P.Ctx, now: P.Time)
    requires MayJoin(r, c)
    ensures var me, others := r.started, Others(P.WithEntry(r.pool, c), c);
            && Apply(r, Find(c, now)) == Joined(r, c, now, Found)
            && Apply(Joined(r, c, now, Found), Look(me, true)) == Joined(r, c, now, Missed)
            && Apply(Joined(r, c, now, Missed), Snap(me)) == Joined(r, c, now, Scanning(others, 0, None, 0))
  {
    JoinedGoes(r, c, now, Found, Missed);
    JoinedGoes(r, c, now, Missed, Scanning(Others(P.WithEntry(r.pool, c), c), 0, None, 0));
    var q := Joined(r, c, now, Found);
    assert !Live(q, q.pending[r.started].slot);
    hide Go, Open, P.WithEntry, Live;
  }

  lemma Arrive(tr: Trace, c: P.Ctx, now: P.Time) returns (tr': Trace)
    requires Valid(tr) && MayJoin(tr.race, c) && now >= tr.at
    ensures Valid(tr') && Follows(tr, tr', now) && (tr.single ==> tr'.single)
    ensures tr'.race == Joined(tr.race, c, now, Scanning(Others(P.WithEntry(tr.race.pool, c), c), 0, None, 0))
  {
    var r, others := tr.race, Others(P.WithEntry(tr.race.pool, c), c);
    ArriveSteps(r, c, now);
    JoinedGoes(r, c, now, Found, Missed);
    JoinedGoes(r, c, now, Missed, Found);
    JoinedGoes(r, c, now, Scanning(others, 0, None, 0), Found);
    hide Valid, Apply, OnePast, Joined, Others, P.WithEntry, Open, LiveIn, Go;
    tr' := Take(tr, Find(c, now), Joined(r, c, now, Found));
    tr' := Take(tr', Look(r.started, true), Joined(r, c, now, Missed));
    tr' := Take(tr', Snap(r.started), Joined(r, c, now, Scanning(others, 0, None, 0)));
  }

  /** Below the cap its scan leads to a pass. */
  lemma ScanPasses(tr: Trace, r: Race, c: P.Ctx, now: P.Time) returns (tr': Trace)
    requires Valid(tr) && MayJoin(r, c) && |Open(r.pool)| < r.pool.cfg.maxActive
    requires tr.race == Joined(r, c, now, Scanning(Others(P.WithEntry(r.pool, c), c), 0, None, 0))
    ensures Valid(tr') && Follows(tr, tr', tr.at) && tr'.race == Joined(r, c, now, Ready)
    ensures tr.single && OnePast(tr'.race) ==> tr'.single
  {
    var others := Others(P.WithEntry(r.pool, c), c);
    JoinedGoes(r, c, now, tr.race.pending[r.started].stage, Ready);
    tr' := ReadRest(tr, r.started);
    var k := tr'.race.pending[r.started].stage;
    JoinedGoes(r, c, now, Scanning(others, 0, None, 0), k);
    JoinedGoes(r, c, now, k, Ready);
    assert Open(tr'.race.pool) == Open(r.pool);
    hide Valid, OnePast, Others, P.WithEntry, Open, LiveIn, Go;
    tr' := Take(tr', Decide(r.started), Joined(r, c, now, Ready));
  }

  lemma Pass(tr: Trace, c: P.Ctx, now: P.Time) returns (tr': Trace)
    requires Valid(tr) && MayJoin(tr.race, c) && now >= tr.at && |Open(tr.race.pool)| < tr.race.pool.cfg.maxActive
    ensures Valid(tr') && Follows(tr, tr', now) && tr'.race == Joined(tr.race, c, now, Ready)
    ensures tr.single && OnePast(tr'.race) ==> tr'.single
  {
    hide Valid, OnePast, Others, P.WithEntry, Open, Joined;
    tr' := Arrive(tr, c, now);
    tr' := ScanPasses(tr', tr.race, c, now);
  }

  /** No open session was used before v's. */
  predicate Oldest(p: P.Pool, v: Slot) {
    v in Open(p) && forall s :: s in Open(p) ==> p.entries[s.c].lastUsed >= p.entries[v.c].lastUsed
  }

  lemma ReadsOldest(r: Race, c: P.Ctx, now: P.Time, v: Slot)
    requires MayJoin(r, c) && Oldest(r.pool, v)
    ensures var others := Others(P.WithEntry(r.pool, c), c);
            var k := Scanning(others - {v}, 1, Some(v), r.pool.entries[v.c].lastUsed);
            && v in others
            && Apply(Joined(r, c, now, Scanning(others, 0, None, 0)), Read(r.started, v)) == Joined(r, c, now, k)
  {
    var others := Others(P.WithEntry(r.pool, c), c);
    var k := Scanning(others - {v}, 1, Some(v), r.pool.entries[v.c].lastUsed);
    var q := Joined(r, c, now, Scanning(others, 0, None, 0));
    assert v in Open(q.pool) && v.c != c && Live(q, v) && At(q, v) == r.pool.entries[v.c];
    hide Live, At, LiveIn, Open, P.WithEntry, Go;
    JoinedGoes(r, c, now, Scanning(others, 0, None, 0), k);
  }

  lemma OthersAreYounger(r: Race, c: P.Ctx, now: P.Time, v: Slot, k: Stage)
    requires MayJoin(r, c) && Oldest(r.pool, v)
    requires k.Scanning? && k.lru == Some(v) && k.lruUsed == r.pool.entries[v.c].lastUsed
    ensures var others := Others(P.WithEntry(r.pool, c), c) - {v};
            && Settled(Joined(r, c, now, k), k, others)
            && 1 + |LiveIn(Joined(r, c, now, k), others)| == |Open(r.pool)|
  {
    var q, others := Joined(r, c, now, k), Others(P.WithEntry(r.pool, c), c);
    JoinedGoes(r, c, now, k, k);
    forall s | s in others && Live(q, s) ensures At(q, s).lastUsed >= k.lruUsed {
      assert s in LiveIn(q, others);
      assert s in Open(r.pool) && At(q, s) == r.pool.entries[s.c];
    }
    hide Live, At, Open, P.WithEntry, Joined, Others;
    assert LiveIn(q, others - {v}) == LiveIn(q, others) - {v};
  }

  lemma ScanFrom(tr: Trace, c: P.Ctx, now: P.Time, v: Slot) returns (tr': Trace, k: Stage)
    requires Valid(tr) && MayJoin(tr.race, c) && now >= tr.at && Oldest(tr.race.pool, v)
    ensures Valid(tr') && Follows(tr, tr', now) && (tr.single ==> tr'.single) && tr'.race == Joined(tr.race, c, now, k)
    ensures k.Scanning? && k.left == {} && k.active == |Open(tr.race.pool)| && k.lru == Some(v)
  {
    var r := tr.race;
    var others := Others(P.WithEntry(r.pool, c), c);
    var k0 := Scanning(others - {v}, 1, Some(v), r.pool.entries[v.c].lastUsed);
    ReadsOldest(r, c, now, v);
    OthersAreYounger(r, c, now, v, k0);
    JoinedGoes(r, c, now, k0, k0);
    if tr.single { SingleNow(tr); }
    hide OnePast, Others, P.WithEntry, Open, LiveIn, Settled, Oldest, Apply, Valid;
    tr' := Arrive(tr, c, now);
    tr' := Take(tr', Read(r.started, v), Joined(r, c, now, k0));
    tr' := ReadRest(tr', r.started);
    k := tr'.race.pending[r.started].stage;
    JoinedGoes(r, c, now, k0, k);
  }

  lemma SingleNow(tr: Trace)
    requires Valid(tr) && tr.single
    ensures OnePast(tr.race)
  {
  }

  /** At the cap, under evict-lru, it settles on any session that is an oldest one. */
  lemma Settle(tr: Trace, c: P.Ctx, now: P.Time, v: Slot) returns (tr': Trace)
    requires Valid(tr) && MayJoin(tr.race, c) && now >= tr.at && Oldest(tr.race.pool, v)
    requires |Open(tr.race.pool)| >= tr.race.pool.cfg.maxActive && tr.race.pool.cfg.policy.EvictLRU?
    ensures Valid(tr') && Follows(tr, tr', now) && tr'.race == Joined(tr.race, c, now, Evicting(v))
    ensures tr.single && OnePast(tr'.race) ==> tr'.single
  {
    hide OnePast, Open, Oldest, Apply, Valid, Clean;
    var r, k := tr.race, Found;
    tr', k := ScanFrom(tr, c, now, v);
    JoinedGoes(r, c, now, k, Evicting(v));
    DecideSettles(tr'.race, r.started, v);
    tr' := Take(tr', Decide(r.started), Joined(r, c, now, Evicting(v)));
  }

  lemma DecideSettles(r: Race, me: nat, v: Slot)
    requires Enabled(r, Decide(me)) && r.pending[me].stage.lru == Some(v) && r.pool.cfg.policy.EvictLRU?
    requires r.pending[me].stage.active >= r.pool.cfg.maxActive
    ensures Apply(r, Decide(me)) == Go(r, me, Evicting(v)) && Clean(r, Decide(me))
  {
  }

  // ----- Installing -----

  /** The pool has this slot, and there is no session on it. */
  predicate Vacant(p: P.Pool, s: Slot) {
    Current(p, s) && !p.entries[s.c].Live()
  }

  function Opened(r: Race, me: nat): Race
    requires me in r.pending && Current(r.pool, r.pending[me].slot)
  {
    var k := r.pending[me];
    r.(pool := P.Install(r.pool, k.slot.c, k.now, P.Notifier), pending := r.pending - {me})
  }

  lemma CommitIs(r: Race, me: nat)
    requires Enabled(r, Commit(me, true, P.Notifier)) && Vacant(r.pool, r.pending[me].slot)
    ensures Apply(r, Commit(me, true, P.Notifier)) == Opened(r, me) && Clean(r, Commit(me, true, P.Notifier))
    ensures OnePast(r) ==> OnePast(Opened(r, me))
  {
    var s := r.pending[me].slot;
    assert r.pool.entries[s.c := At(r, s)] == r.pool.entries;
    assert forall id :: Past(Opened(r, me), id) ==> Past(r, id);
  }

  lemma Through(tr: Trace, me: nat) returns (tr': Trace)
    requires Valid(tr) && Enabled(tr.race, Commit(me, true, P.Notifier))
    requires Vacant(tr.race.pool, tr.race.pending[me].slot)
    ensures Valid(tr') && Follows(tr, tr', tr.at) && (tr.single ==> tr'.single) && tr'.race == Opened(tr.race, me)
  {
    CommitIs(tr.race, me);
    hide Valid, Apply, OnePast, Opened, Clean;
    tr' := Take(tr, Commit(me, true, P.Notifier), Opened(tr.race, me));
  }

  // ----- New names -----

  /** Names from the n-th on are not in the pool, and all sessions are equally old. */
  ghost predicate Tidy(p: P.Pool, n: nat) {
    && (forall i: nat :: i >= n ==> D.Print(i) !in p.entries)
    && (forall s :: s in Open(p) ==> p.entries[s.c].lastUsed == 0)
  }

  ghost predicate HasRoom(r: Race, n: nat) {
    |r.pending| < r.callers && r.started !in r.pending && r.pool.cfg.maxActive > 0 && Tidy(r.pool, n)
  }

  lemma NewName(r: Race, n: nat, k: Stage)
    requires HasRoom(r, n)
    ensures MayJoin(r, D.Print(n))
    ensures var q, c := Joined(r, D.Print(n), 0, k), D.Print(n);
            && Tidy(q.pool, n + 1) && Open(q.pool) == Open(r.pool) && q.pool.cfg == r.pool.cfg
            && Vacant(q.pool, q.pending[r.started].slot) && q.pending[r.started].slot.c == c
            && (forall x :: Vacant(r.pool, x) ==> Vacant(q.pool, x) && x.c != c)
  {
    var q := Joined(r, D.Print(n), 0, k);
    JoinedGoes(r, D.Print(n), 0, k, k);
    forall i: nat | i >= n + 1 ensures D.Print(i) !in q.pool.entries { D.PrintIsInjective(i, n); }
    hide D.Print;
  }

  lemma TidyOldest(p: P.Pool, n: nat, v: Slot)
    requires Tidy(p, n) && v in Open(p)
    ensures Oldest(p, v)
  {
  }

  lemma Installs(r: Race, me: nat, n: nat)
    requires me in r.pending && r.pending[me].now == 0 && Vacant(r.pool, r.pending[me].slot) && Tidy(r.pool, n)
    ensures var q, s := Opened(r, me), r.pending[me].slot;
            && Tidy(q.pool, n) && Open(q.pool) == Open(r.pool) + {s} && s !in Open(r.pool)
            && q.pool.cfg == r.pool.cfg
            && (forall x :: Vacant(r.pool, x) && x.c != s.c ==> Vacant(q.pool, x))
  {
    hide D.Print;
    var q, s := Opened(r, me), r.pending[me].slot;
    assert Open(q.pool) == Open(r.pool) + {s};
  }

  // ----- Lookups that wait -----

  /** Lookups from..to are free to install, each on a vacant slot of its own. */
  ghost predicate Waiting(r: Race, from: nat, to: nat) {
    && r.lost == map[] && from <= to
    && (forall i :: i in r.pending <==> from <= i < to)
    && (forall i :: i in r.pending ==>
      r.pending[i].stage.Ready? && r.pending[i].now == 0 && Vacant(r.pool, r.pending[i].slot))
    && (forall i, j :: i in r.pending && j in r.pending && i != j ==> r.pending[i].slot.c != r.pending[j].slot.c)
  }

  lemma NextWaits(r: Race, from: nat, n: nat)
    requires Waiting(r, from, r.started) && HasRoom(r, n)
    ensures Waiting(Joined(r, D.Print(n), 0, Ready), from, r.started + 1)
  {
    hide D.Print, Open, P.WithEntry, Tidy, Vacant, MayJoin;
    NewName(r, n, Ready);
  }

  lemma FirstIsAlone(r: Race, from: nat, to: nat, c: P.Ctx)
    requires Waiting(r, from, to)
    ensures from == to ==> OnePast(Joined(r, c, 0, Ready))
  {
    hide P.WithEntry, Vacant;
  }

  lemma FirstLeaves(r: Race, from: nat, to: nat, n: nat)
    requires Waiting(r, from, to) && from < to && Tidy(r.pool, n)
    ensures Enabled(r, Commit(from, true, P.Notifier)) && r.pending[from].now == 0
    ensures Vacant(r.pool, r.pending[from].slot) && Waiting(Opened(r, from), from + 1, to)
  {
    hide Open, P.Install, Tidy, Vacant;
    assert Current(r.pool, r.pending[from].slot) by { VacantMeans(r.pool, r.pending[from].slot); }
    Installs(r, from, n);
  }

  lemma VacantMeans(p: P.Pool, s: Slot)
    requires Vacant(p, s)
    ensures Current(p, s) && !p.entries[s.c].Live()
  {
  }

  lemma WaitingMeans(r: Race, from: nat, to: nat)
    requires Waiting(r, from, to)
    ensures to !in r.pending && (from == to ==> r.pending == map[])
  {
  }

  /** A run at time 0 to k open sessions, and no slot was lost. */
  ghost predicate Full(tr: Trace, cfg: P.Config, callers: nat, k: nat, n: nat) {
    && Valid(tr) && tr.at == 0 && tr.start == Begin(cfg, callers)
    && tr.race.pool.cfg == cfg && tr.race.callers == callers && tr.race.lost == map[]
    && |Open(tr.race.pool)| == k && Tidy(tr.race.pool, n)
  }

  lemma OnePasses(tr: Trace, cfg: P.Config, callers: nat, k: nat, n: nat, from: nat) returns (tr': Trace)
    requires Full(tr, cfg, callers, k, n) && Waiting(tr.race, from, tr.race.started)
    requires k < cfg.maxActive && |tr.race.pending| < callers
    ensures Full(tr', cfg, callers, k, n + 1) && Waiting(tr'.race, from, tr'.race.started)
    ensures tr'.race.started == tr.race.started + 1 && |tr'.race.pending| <= |tr.race.pending| + 1
    ensures tr'.tally == tr.tally && (tr.single && from == tr.race.started ==> tr'.single)
  {
    hide D.Print, Open, Valid, Tidy, Waiting, Current, Vacant, P.Entry.Live, P.WithEntry, OnePast;
    var me := tr.race.started;
    WaitingMeans(tr.race, from, me);
    NextWaits(tr.race, from, n);
    FirstIsAlone(tr.race, from, me, D.Print(n));
    NewName(tr.race, n, Ready);
    tr' := Pass(tr, D.Print(n), 0);
    Moved(tr.race.pending, me, tr'.race.pending[me]);
  }

  lemma OneGoesThrough(tr: Trace, cfg: P.Config, callers: nat, k: nat, n: nat, from: nat, to: nat)
      returns (tr': Trace)
    requires Full(tr, cfg, callers, k, n) && Waiting(tr.race, from, to) && from < to
    ensures Full(tr', cfg, callers, k + 1, n) && Waiting(tr'.race, from + 1, to)
    ensures tr'.race.started == tr.race.started && tr'.tally == tr.tally && (tr.single ==> tr'.single)
  {
    hide Open, Valid, Tidy, P.Install, Waiting, Current, Vacant, P.Entry.Live;
    FirstLeaves(tr.race, from, to, n);
    Installs(tr.race, from, n);
    tr' := Through(tr, from);
  }

  /** The same with nobody under way. */
  ghost predicate Filled(tr: Trace, cfg: P.Config, callers: nat, k: nat, n: nat) {
    Full(tr, cfg, callers, k, n) && tr.race.pending == map[]
  }

  lemma {:induction false} Fill(cfg: P.Config, callers: nat, k: nat) returns (tr: Trace)
    requires k <= cfg.maxActive && callers > 0
    ensures Filled(tr, cfg, callers, k, k) && tr.tally == Tally(0, 0, 0) && tr.single
  {
    if k == 0 {
      tr := Trace(Begin(cfg, callers), [], Begin(cfg, callers), Tally(0, 0, 0), 0, true);
      assert Open(tr.race.pool) == {};
    } else {
      tr := Fill(cfg, callers, k - 1);
      var me := tr.race.started;
      assert Waiting(tr.race, me, me) by { hide Open, Valid, Tidy; }
      hide Valid, Open, Tidy, Waiting;
      tr := OnePasses(tr, cfg, callers, k - 1, k - 1, me);
      tr := OneGoesThrough(tr, cfg, callers, k - 1, k, me, me + 1);
      WaitingMeans(tr.race, me + 1, me + 1);
    }
  }

  // ----- The bound is reached -----

  lemma {:induction false} AllPass(cfg: P.Config, callers: nat, j: nat) returns (tr: Trace, from: nat, n: nat)
    requires cfg.maxActive > 0 && callers > 0 && j <= callers
    ensures Full(tr, cfg, callers, cfg.maxActive - 1, n) && Waiting(tr.race, from, from + j)
    ensures tr.race.started == from + j && |tr.race.pending| <= j && tr.tally == Tally(0, 0, 0)
  {
    hide Valid, Open, Tidy, Vacant;
    if j == 0 {
      tr := Fill(cfg, callers, cfg.maxActive - 1);
      from, n := tr.race.started, cfg.maxActive - 1;
    } else {
      tr, from, n := AllPass(cfg, callers, j - 1);
      tr := OnePasses(tr, cfg, callers, cfg.maxActive - 1, n, from);
      n := n + 1;
    }
  }

  lemma {:induction false} AllGoThrough(cfg: P.Config, callers: nat, j: nat)
      returns (tr: Trace, n: nat, from: nat, to: nat)
    requires cfg.maxActive > 0 && 0 < callers && j <= callers
    ensures Full(tr, cfg, callers, cfg.maxActive - 1 + j, n) && Waiting(tr.race, from, to) && to == from + callers - j
    ensures tr.tally == Tally(0, 0, 0)
  {
    hide Full, Waiting;
    if j == 0 {
      tr, from, n := AllPass(cfg, callers, callers);
      to := from + callers;
    } else {
      tr, n, from, to := AllGoThrough(cfg, callers, j - 1);
      tr := OneGoesThrough(tr, cfg, callers, cfg.maxActive - 2 + j, n, from, to);
      from := from + 1;
    }
  }

  /** The bound of both policies is the best one: for every cap and every N there is
      a run of a new pool that slips through none of the ways past the cap and ends
      with exactly max_active - 1 + N open sessions. */
  lemma BoundIsReached(cfg: P.Config, callers: nat) returns (steps: seq<Step>)
    requires cfg.maxActive > 0 && callers > 0
    ensures var start := Begin(cfg, callers);
            && LiveSessions(Run(start, steps)) == cfg.maxActive - 1 + callers
            && TallyOf(start, steps) == Tally(0, 0, 0) && Forward(steps, 0)
  {
    hide Open, Run, TallyOf, Forward, Tidy;
    var tr, n, from, to := AllGoThrough(cfg, callers, callers);
    steps := tr.steps;
    assert Strays(tr.race) == {};
  }

  // ----- Evicting -----

  /** The victim is closed for this lookup. */
  function Evicted(r: Race, me: nat): Race
    requires me in r.pending && r.pending[me].stage.Evicting?
  {
    Go(r.(pool := P.EvictForCap(r.pool, r.pending[me].stage.victim.c, 0)), me, Ready)
  }

  lemma EvictIs(r: Race, me: nat)
    requires Enabled(r, Evict(me, 0)) && r.pending[me].stage.victim in Open(r.pool)
    ensures Apply(r, Evict(me, 0)) == Evicted(r, me) && Clean(r, Evict(me, 0))
    ensures OnePast(r) ==> OnePast(Evicted(r, me))
  {
    assert forall id :: Past(Evicted(r, me), id) <==> Past(r, id);
  }

  lemma EvictFinds(tr: Trace, me: nat) returns (tr': Trace)
    requires Valid(tr) && tr.at == 0 && Enabled(tr.race, Evict(me, 0))
    requires tr.race.pending[me].stage.victim in Open(tr.race.pool)
    ensures Valid(tr') && Follows(tr, tr', 0) && (tr.single ==> tr'.single) && tr'.race == Evicted(tr.race, me)
  {
    hide Valid, Apply, OnePast, Evicted, Clean, Open;
    EvictIs(tr.race, me);
    tr' := Take(tr, Evict(me, 0), Evicted(tr.race, me));
  }

  lemma MissIs(r: Race, me: nat, t: Tally)
    requires Enabled(r, Evict(me, 0)) && Vacant(r.pool, r.pending[me].stage.victim)
    ensures Apply(r, Evict(me, 0)) == Go(r, me, Ready)
    ensures Count(t, r, Evict(me, 0)) == t.(missed := t.missed + 1)
  {
  }

  lemma EvictMisses(tr: Trace, me: nat) returns (tr': Trace)
    requires Valid(tr) && tr.at == 0 && Enabled(tr.race, Evict(me, 0))
    requires Vacant(tr.race.pool, tr.race.pending[me].stage.victim)
    ensures Valid(tr') && tr'.start == tr.start && tr'.at == 0 && tr'.race == Go(tr.race, me, Ready)
    ensures tr'.tally == tr.tally.(missed := tr.tally.missed + 1)
  {
    hide Valid, Apply, Count, OnePast, Vacant;
    MissIs(tr.race, me, tr.tally);
    Extends(tr, Evict(me, 0));
    tr' := Extend(tr, Evict(me, 0));
  }

  lemma Closes(p: P.Pool, v: Slot, n: nat)
    requires v in Open(p) && Tidy(p, n)
    ensures var q := P.EvictForCap(p, v.c, 0);
            && Tidy(q, n) && Open(q) == Open(p) - {v} && Vacant(q, v) && q.cfg == p.cfg
            && (forall x :: Vacant(p, x) ==> Vacant(q, x))
  {
    hide D.Print;
  }

  // ----- Evictions that miss pile up -----

  /** Two lookups of new names settle on the same victim. */
  lemma BothSettle(tr: Trace, cfg: P.Config, callers: nat, k: nat, n: nat, v: Slot) returns (tr': Trace)
    requires Filled(tr, cfg, callers, k, n) && k >= cfg.maxActive > 0 && cfg.policy.EvictLRU? && callers >= 2
    requires v in Open(tr.race.pool)
    ensures Full(tr', cfg, callers, k, n + 2) && Both(tr'.race, tr.race.started, Evicting(v), Evicting(v))
    ensures tr'.race.started == tr.race.started + 2 && v in Open(tr'.race.pool) && tr'.tally == tr.tally
  {
    hide D.Print, Open, Valid, Tidy, P.Entry.Live, P.WithEntry, OnePast, Oldest, Vacant, Current;
    var me := tr.race.started;
    TidyOldest(tr.race.pool, n, v);
    NewName(tr.race, n, Evicting(v));
    tr' := Settle(tr, D.Print(n), 0, v);
    var r := tr'.race;
    assert |r.pending| == 1 && v in Open(r.pool);
    TidyOldest(r.pool, n + 1, v);
    NewName(r, n + 1, Evicting(v));
    tr' := Settle(tr', D.Print(n + 1), 0, v);
    SecondJoins(r, n + 1, me, v);
  }

  /** Lookups a and a + 1 are under way at these stages, on vacant slots of their own. */
  ghost predicate Both(r: Race, a: nat, k: Stage, k': Stage) {
    && r.pending.Keys == {a, a + 1} && r.pending[a].stage == k && r.pending[a + 1].stage == k'
    && r.pending[a].slot.c != r.pending[a + 1].slot.c
    && forall i :: i in r.pending ==> r.pending[i].now == 0 && Vacant(r.pool, r.pending[i].slot)
  }

  lemma SecondJoins(r: Race, n: nat, a: nat, v: Slot)
    requires HasRoom(r, n) && r.started == a + 1 && r.pending.Keys == {a}
    requires r.pending[a].now == 0 && r.pending[a].stage == Evicting(v) && Vacant(r.pool, r.pending[a].slot)
    ensures Both(Joined(r, D.Print(n), 0, Evicting(v)), a, Evicting(v), Evicting(v))
  {
    hide D.Print, Open, Tidy, Vacant, P.WithEntry;
    NewName(r, n, Evicting(v));
  }

  lemma FirstEvicts(r: Race, a: nat, v: Slot, n: nat)
    requires Both(r, a, Evicting(v), Evicting(v)) && v in Open(r.pool) && Tidy(r.pool, n)
    ensures Both(Evicted(r, a), a, Ready, Evicting(v))
  {
    hide D.Print, Open, Tidy, Vacant, P.EvictForCap;
    Closes(r.pool, v, n);
  }

  lemma BothEvict(tr: Trace, cfg: P.Config, callers: nat, k: nat, n: nat, v: Slot, a: nat) returns (tr': Trace)
    requires Full(tr, cfg, callers, k, n) && Both(tr.race, a, Evicting(v), Evicting(v)) && v in Open(tr.race.pool)
    ensures k > 0 && Full(tr', cfg, callers, k - 1, n) && Waiting(tr'.race, a, a + 2)
    ensures tr'.tally == tr.tally.(missed := tr.tally.missed + 1)
  {
    hide D.Print, Open, Valid, Tidy, P.Entry.Live, P.EvictForCap, Vacant, OnePast;
    Closes(tr.race.pool, v, n);
    FirstEvicts(tr.race, a, v, n);
    tr' := EvictFinds(tr, a);
    tr' := EvictMisses(tr', a + 1);
  }

  /** From a full pool at rest to one with a session more: two lookups, one victim. */
  lemma OneMore(tr: Trace, cfg: P.Config, callers: nat, k: nat, n: nat) returns (tr': Trace)
    requires Filled(tr, cfg, callers, k, n) && k >= cfg.maxActive > 0 && cfg.policy.EvictLRU? && callers >= 2
    ensures Filled(tr', cfg, callers, k + 1, n + 2) && tr'.tally == tr.tally.(missed := tr.tally.missed + 1)
  {
    hide Valid, Open, Tidy, Both, Waiting;
    var v :| v in Open(tr.race.pool);
    var a := tr.race.started;
    tr' := BothSettle(tr, cfg, callers, k, n, v);
    tr' := BothEvict(tr', cfg, callers, k, n + 2, v, a);
    tr' := OneGoesThrough(tr', cfg, callers, k - 1, n + 2, a, a + 2);
    tr' := OneGoesThrough(tr', cfg, callers, k, n + 2, a + 1, a + 2);
    WaitingMeans(tr'.race, a + 2, a + 2);
  }

  lemma {:induction false} PileUp(cfg: P.Config, callers: nat, extra: nat) returns (tr: Trace, n: nat)
    requires cfg.maxActive > 0 && callers >= 2 && cfg.policy.EvictLRU?
    ensures Filled(tr, cfg, callers, cfg.maxActive + extra, n) && tr.tally == Tally(extra, 0, 0)
  {
    hide Filled;
    if extra == 0 {
      tr := Fill(cfg, callers, cfg.maxActive);
      n := cfg.maxActive;
    } else {
      tr, n := PileUp(cfg, callers, extra - 1);
      tr := OneMore(tr, cfg, callers, cfg.maxActive + extra - 1, n);
      n := n + 2;
    }
  }

  /** Under evict-lru two lookups at a time are enough to pass any bound: whenever
      both settle on the same victim, one session is closed and two are opened. The
      pool then counts them all, and a lone lookup only trades one for another. */
  lemma MissedEvictionsPileUp(cfg: P.Config, callers: nat, extra: nat) returns (steps: seq<Step>)
    requires cfg.maxActive > 0 && callers >= 2 && cfg.policy.EvictLRU?
    ensures var start := Begin(cfg, callers);
            && Run(start, steps).pending == map[] && LiveSessions(Run(start, steps)) == cfg.maxActive + extra
            && TallyOf(start, steps) == Tally(extra, 0, 0) && Forward(steps, 0)
  {
    hide Open, Run, TallyOf, Forward, Tidy;
    var tr, n := PileUp(cfg, callers, extra);
    steps := tr.steps;
    assert Strays(tr.race) == {};
  }

  // ----- Sessions that scans overlook pile up -----

  /** A lookup `a` is under way in its scan and has counted nobody. */
  ghost predicate Behind(tr: Trace, cfg: P.Config, callers: nat, k: nat, n: nat, a: nat, left: set<Slot>) {
    && Full(tr, cfg, callers, k, n) && tr.race.pending.Keys == {a} && a < tr.race.started && tr.single
    && tr.race.pending[a].stage == Scanning(left, 0, None, 0) && tr.race.pending[a].now == 0
    && Vacant(tr.race.pool, tr.race.pending[a].slot)
  }

  lemma VacantIsNotOpen(p: P.Pool, s: Slot, x: Slot)
    requires s in Open(p) && Vacant(p, x)
    ensures s.c != x.c
  {
  }

  lemma LiveIsOpen(r: Race, s: Slot)
    requires r.lost == map[]
    ensures Live(r, s) <==> s in Open(r.pool)
  {
  }

  /** Behind its back another lookup, of a new name, replaces the session on s. */
  lemma Replace(tr: Trace, cfg: P.Config, callers: nat, k: nat, n: nat, a: nat, left: set<Slot>, s: Slot)
      returns (tr': Trace)
    requires Behind(tr, cfg, callers, k, n, a, left) && s in Open(tr.race.pool)
    requires k >= cfg.maxActive > 0 && cfg.policy.EvictLRU? && callers >= 2
    ensures Behind(tr', cfg, callers, k, n + 1, a, left) && !Live(tr'.race, s) && tr'.tally == tr.tally
  {
    hide D.Print, Open, Valid, Tidy, P.Entry.Live, P.WithEntry, P.Install, Oldest, Vacant, Live;
    var b, mine := tr.race.started, tr.race.pending[a].slot;
    assert |tr.race.pending| == |tr.race.pending.Keys| == 1;
    TidyOldest(tr.race.pool, n, s);
    NewName(tr.race, n, Evicting(s));
    tr' := Settle(tr, D.Print(n), 0, s);
    assert OnePast(tr'.race);
    Closes(tr'.race.pool, s, n + 1);
    VacantIsNotOpen(tr'.race.pool, s, tr'.race.pending[b].slot);
    tr' := EvictFinds(tr', b);
    VacantMeans(tr'.race.pool, tr'.race.pending[b].slot);
    Installs(tr'.race, b, n + 1);
    tr' := Through(tr', b);
    LiveIsOpen(tr'.race, s);
  }

  lemma ReadDead(tr: Trace, cfg: P.Config, callers: nat, k: nat, n: nat, a: nat, left: set<Slot>, s: Slot)
      returns (tr': Trace)
    requires Behind(tr, cfg, callers, k, n, a, left) && s in left && !Live(tr.race, s)
    ensures Behind(tr', cfg, callers, k, n, a, left - {s}) && tr'.tally == tr.tally
  {
    hide Open, Valid, Tidy, Vacant, Live, OnePast;
    var stage := Scanning(left - {s}, 0, None, 0);
    GoOn(tr.race, a, stage);
    tr' := Take(tr, Read(a, s), Go(tr.race, a, stage));
  }

  lemma {:induction false} ReadNobody(tr: Trace, cfg: P.Config, callers: nat, k: nat, n: nat, a: nat, left: set<Slot>)
      returns (tr': Trace, n': nat)
    requires Behind(tr, cfg, callers, k, n, a, left)
    requires k >= cfg.maxActive > 0 && cfg.policy.EvictLRU? && callers >= 2
    ensures Behind(tr', cfg, callers, k, n', a, {}) && tr'.tally == tr.tally
    decreases left
  {
    hide Behind, Live, Open;
    tr', n' := tr, n;
    if left != {} {
      var s :| s in left;
      if Live(tr.race, s) {
        assert s in Open(tr.race.pool) by { BehindIsOpen(tr, cfg, callers, k, n, a, left, s); }
        tr' := Replace(tr, cfg, callers, k, n, a, left, s);
        n' := n + 1;
      }
      tr' := ReadDead(tr', cfg, callers, k, n', a, left, s);
      tr', n' := ReadNobody(tr', cfg, callers, k, n', a, left - {s});
    }
  }

  lemma BehindIsOpen(tr: Trace, cfg: P.Config, callers: nat, k: nat, n: nat, a: nat, left: set<Slot>, s: Slot)
    requires Behind(tr, cfg, callers, k, n, a, left) && Live(tr.race, s)
    ensures s in Open(tr.race.pool)
  {
    hide Valid, Tidy;
    LiveIsOpen(tr.race, s);
  }

  /** The lookup `a`, alone under way, has read everything and counted too few. */
  ghost predicate Undercounts(r: Race, a: nat) {
    && r.pending.Keys == {a} && r.pending[a].now == 0 && Vacant(r.pool, r.pending[a].slot)
    && r.pending[a].stage.Scanning? && r.pending[a].stage.left == {}
    && r.pending[a].stage.active < r.pool.cfg.maxActive <= |Open(r.pool)|
  }

  lemma OverlookIs(r: Race, a: nat, t: Tally)
    requires Undercounts(r, a) && r.lost == map[]
    ensures Apply(r, Decide(a)) == Go(r, a, Ready) && OnePast(Go(r, a, Ready)) && Waiting(Go(r, a, Ready), a, a + 1)
    ensures Count(t, r, Decide(a)) == t.(overlooked := t.overlooked + 1)
  {
    hide Vacant, Open;
  }

  lemma Overlook(tr: Trace, cfg: P.Config, callers: nat, k: nat, n: nat, a: nat) returns (tr': Trace)
    requires Full(tr, cfg, callers, k, n) && Undercounts(tr.race, a) && tr.single
    ensures Filled(tr', cfg, callers, k + 1, n) && tr'.single
    ensures tr'.tally == tr.tally.(overlooked := tr.tally.overlooked + 1)
  {
    hide Open, Valid, Tidy, Vacant, Apply, OnePast, Count, Waiting, Undercounts;
    OverlookIs(tr.race, a, tr.tally);
    Extends(tr, Decide(a));
    tr' := Extend(tr, Decide(a));
    tr' := OneGoesThrough(tr', cfg, callers, k, n, a, a + 1);
    WaitingMeans(tr'.race, a + 1, a + 1);
  }

  /** From a full pool at rest to one with a session more: while one lookup scans,
      every session it has yet to read is replaced by one it does not know of. */
  lemma OneMoreBehind(tr: Trace, cfg: P.Config, callers: nat, k: nat, n: nat) returns (tr': Trace, n': nat)
    requires Filled(tr, cfg, callers, k, n) && k >= cfg.maxActive > 0 && cfg.policy.EvictLRU? && callers >= 2
    requires tr.single
    ensures Filled(tr', cfg, callers, k + 1, n') && tr'.single
    ensures tr'.tally == tr.tally.(overlooked := tr.tally.overlooked + 1)
  {
    hide D.Print, Open, Valid, Tidy, Vacant, P.Entry.Live, P.WithEntry, Waiting, Current;
    var a, c := tr.race.started, D.Print(n);
    var others := Others(P.WithEntry(tr.race.pool, c), c);
    NewName(tr.race, n, Scanning(others, 0, None, 0));
    tr' := Arrive(tr, c, 0);
    tr', n' := ReadNobody(tr', cfg, callers, k, n + 1, a, others);
    tr' := Overlook(tr', cfg, callers, k, n', a);
  }

  lemma {:induction false} PileUpBehind(cfg: P.Config, callers: nat, extra: nat) returns (tr: Trace, n: nat)
    requires cfg.maxActive > 0 && callers >= 2 && cfg.policy.EvictLRU?
    ensures Filled(tr, cfg, callers, cfg.maxActive + extra, n) && tr.tally == Tally(0, extra, 0) && tr.single
  {
    hide Filled;
    if extra == 0 {
      tr := Fill(cfg, callers, cfg.maxActive);
      n := cfg.maxActive;
    } else {
      tr, n := PileUpBehind(cfg, callers, extra - 1);
      tr, n := OneMoreBehind(tr, cfg, callers, cfg.maxActive + extra - 1, n);
    }
  }

  /** Nor is it enough, under evict-lru, that never more than one lookup is past the
      cap check and that no eviction misses: with two in progress the sessions pass any
      bound, since a scan reads the slots one by one and counts none that is replaced
      before it comes to it. */
  lemma OverlookedSessionsPileUp(cfg: P.Config, callers: nat, extra: nat) returns (steps: seq<Step>)
    requires cfg.maxActive > 0 && callers >= 2 && cfg.policy.EvictLRU?
    ensures var start := Begin(cfg, callers);
            && Run(start, steps).pending == map[] && LiveSessions(Run(start, steps)) == cfg.maxActive + extra
            && TallyOf(start, steps) == Tally(0, extra, 0) && OnePastThroughout(start, steps) && Forward(steps, 0)
  {
    hide Open, Run, TallyOf, Forward, Tidy, OnePastThroughout;
    var tr, n := PileUpBehind(cfg, callers, extra);
    steps := tr.steps;
    assert Strays(tr.race) == {};
  }

  // ----- A session replaced under a scan -----

  /** r with the session on s closed. */
  function Without(r: Race, s: Slot): Race
    requires Current(r.pool, s)
  {
    r.(pool := r.pool.(entries := r.pool.entries[s.c := r.pool.entries[s.c].Evict(0)]))
  }

  lemma WithoutIs(r: Race, s: Slot, n: nat)
    requires s in Open(r.pool) && Tidy(r.pool, n)
    ensures var q := Without(r, s);
            && Tidy(q.pool, n) && Open(q.pool) == Open(r.pool) - {s} && Vacant(q.pool, s) && q.pool.cfg == r.pool.cfg
            && P.WithEntry(r.pool, s.c) == r.pool && P.WithEntry(q.pool, s.c) == q.pool
            && SlotOf(q.pool, s.c) == SlotOf(r.pool, s.c) == s
            && (forall x :: Vacant(r.pool, x) ==> Vacant(q.pool, x))
  {
    hide D.Print;
  }

  /** A lookup finds its session dead, and is through to its own scan. */
  lemma FindDead(tr: Trace, s: Slot, n: nat) returns (tr': Trace)
    requires Valid(tr) && tr.at == 0 && s in Open(tr.race.pool) && HasRoom(tr.race, n)
    ensures var r, others := Without(tr.race, s), Others(tr.race.pool, s.c);
            Valid(tr') && Follows(tr, tr', 0) && tr'.race == Joined(r, s.c, 0, Scanning(others, 0, None, 0))
    ensures tr.single ==> tr'.single
  {
    var r, q, others := tr.race, Without(tr.race, s), Others(tr.race.pool, s.c);
    WithoutIs(r, s, n);
    assert MayJoin(q, s.c) && Others(q.pool, s.c) == others;
    ArriveSteps(q, s.c, 0);
    JoinedGoes(q, s.c, 0, Missed, Found);
    JoinedGoes(q, s.c, 0, Scanning(others, 0, None, 0), Found);
    if tr.single { SingleNow(tr); }
    DeadSteps(r, s, n);
    hide Valid, Apply, OnePast, Joined, Others, P.WithEntry, Open, LiveIn, Go, Without;
    tr' := Take(tr, Find(s.c, 0), Joined(r, s.c, 0, Found));
    tr' := Take(tr', Look(r.started, false), Joined(q, s.c, 0, Missed));
    tr' := Take(tr', Snap(r.started), Joined(q, s.c, 0, Scanning(others, 0, None, 0)));
  }

  lemma DeadSteps(r: Race, s: Slot, n: nat)
    requires s in Open(r.pool) && HasRoom(r, n)
    ensures Apply(r, Find(s.c, 0)) == Joined(r, s.c, 0, Found)
    ensures Apply(Joined(r, s.c, 0, Found), Look(r.started, false)) == Joined(Without(r, s), s.c, 0, Missed)
    ensures OnePast(r) ==> OnePast(Joined(r, s.c, 0, Found)) && OnePast(Without(r, s))
  {
    WithoutIs(r, s, n);
    var q := Joined(r, s.c, 0, Found);
    assert q.pool == r.pool && q.pending[r.started].slot == s && Live(q, s) && At(q, s) == r.pool.entries[s.c];
    assert q.pending[r.started := q.pending[r.started].(stage := Missed)] ==
           r.pending[r.started := q.pending[r.started].(stage := Missed)];
    assert forall id :: id != r.started ==> (Past(q, id) <==> Past(r, id));
    assert forall id :: Past(Without(r, s), id) <==> Past(r, id);
  }

  /** While the lookup `a` scans, another finds the session on v dead and passes. */
  lemma PassBehind(tr: Trace, cfg: P.Config, callers: nat, n: nat, a: nat, left: set<Slot>, v: Slot)
      returns (tr': Trace)
    requires cfg.maxActive > 0 && callers >= 2
    requires Behind(tr, cfg, callers, cfg.maxActive, n, a, left) && v in Open(tr.race.pool)
    ensures Valid(tr') && Follows(tr, tr', 0) && tr'.single
    ensures tr'.race == Joined(Without(tr.race, v), v.c, 0, Ready)
  {
    hide D.Print, Open, Valid, Tidy, Vacant, P.Entry.Live;
    var r, q := tr.race, Without(tr.race, v);
    assert |r.pending| == |r.pending.Keys| == 1;
    WithoutIs(r, v, n);
    assert MayJoin(q, v.c) by { VacantMeans(q.pool, v); }
    assert Others(q.pool, v.c) == Others(r.pool, v.c) by { SameSlots(r, v); }
    tr' := FindDead(tr, v, n);
    tr' := ScanPasses(tr', q, v.c, 0);
    assert OnePast(tr'.race);
  }

  lemma SameSlots(r: Race, v: Slot)
    requires Current(r.pool, v)
    ensures Others(Without(r, v).pool, v.c) == Others(r.pool, v.c)
  {
    assert forall x :: Current(Without(r, v).pool, x) <==> Current(r.pool, x);
  }

  lemma FewLive(r: Race, slots: set<Slot>)
    requires r.lost == map[]
    ensures |LiveIn(r, slots)| <= |Open(r.pool)|
  {
    P.FewerFit(LiveIn(r, slots), Open(r.pool));
  }

  /** It then goes through, and the scan it happened under counts too few. */
  lemma ReplaceBehind(tr: Trace, cfg: P.Config, callers: nat, n: nat, a: nat, left: set<Slot>, v: Slot)
      returns (tr': Trace)
    requires cfg.maxActive > 0 && callers >= 2
    requires Behind(tr, cfg, callers, cfg.maxActive, n, a, left) && v in Open(tr.race.pool)
    ensures Full(tr', cfg, callers, cfg.maxActive, n) && Undercounts(tr'.race, a) && tr'.single
    ensures tr'.tally == tr.tally
  {
    hide D.Print, Open, Valid, Tidy, Vacant, P.Entry.Live, P.Install, P.WithEntry, OnePast, LiveIn;
    var b := tr.race.started;
    WithoutIs(tr.race, v, n);
    VacantIsNotOpen(tr.race.pool, v, tr.race.pending[a].slot);
    tr' := PassBehind(tr, cfg, callers, n, a, left, v);
    FewLive(tr'.race, left);
    tr' := ReadRest(tr', a);
    Installs(tr'.race, b, n);
    tr' := Through(tr', b);
  }

  /** Under either policy, then, the bound needs N to be the lookups in progress: a
      single lookup past the check at a time, no eviction that misses and no slot
      removed still come to one session more than the cap. */
  lemma OnePastIsNotEnough(cfg: P.Config, callers: nat) returns (steps: seq<Step>)
    requires cfg.maxActive > 0 && callers >= 2
    ensures var start := Begin(cfg, callers);
            && Run(start, steps).pending == map[] && LiveSessions(Run(start, steps)) == cfg.maxActive + 1
            && TallyOf(start, steps) == Tally(0, 1, 0) && OnePastThroughout(start, steps) && Forward(steps, 0)
  {
    hide Open, Run, TallyOf, Forward, Tidy, OnePastThroughout, Vacant, P.WithEntry, D.Print;
    var tr := Fill(cfg, callers, cfg.maxActive);
    var a, n, c := tr.race.started, cfg.maxActive, D.Print(cfg.maxActive);
    var others := Others(P.WithEntry(tr.race.pool, c), c);
    NewName(tr.race, n, Scanning(others, 0, None, 0));
    var v :| v in Open(tr.race.pool);
    tr := Arrive(tr, c, 0);
    tr := ReplaceBehind(tr, cfg, callers, n + 1, a, others, v);
    tr := Overlook(tr, cfg, callers, n, n + 1, a);
    steps := tr.steps;
    assert Strays(tr.race) == {};
  }

  // ----- Sessions on removed slots pile up -----

  const NAME := "c"

  /** When a session last used at t is idle, and when its slot has expired then. */
  function IdleAt(cfg: P.Config, t: P.Time): P.Time {
    t + 1 + if cfg.idleTTL < 0 then 0 else cfg.idleTTL
  }

  function GoneAt(cfg: P.Config, t: P.Time): P.Time {
    IdleAt(cfg, t) + 1 + if cfg.evictedTTL < 0 then 0 else cfg.evictedTTL
  }

  /** A slot whose session was opened at t, and the same evicted for idleness. */
  function UsedSlot(g: nat, session: nat, t: P.Time): P.Entry {
    P.Entry("", g, true, Some(session), t, 0)
  }

  function IdleSlot(cfg: P.Config, g: nat, t: P.Time): P.Entry {
    P.Entry("", g, false, None, t, IdleAt(cfg, t))
  }

  lemma IdleSweep(p: P.Pool, g: nat, session: nat, t: P.Time)
    requires p.entries == map[NAME := UsedSlot(g, session, t)]
    ensures var q := P.Sweep(p, IdleAt(p.cfg, t), {NAME});
            && q.entries == map[NAME := IdleSlot(p.cfg, g, t)] && q.cfg == p.cfg && q.nextGen == p.nextGen
            && |P.EvictedCtxs(q)| == 1
  {
    var now := IdleAt(p.cfg, t);
    var q := P.Sweep(p, now, {NAME});
    assert P.Swept(p, now, {NAME}) == {NAME} && P.Expired(p, now) == {};
    assert q.entries == map[NAME := IdleSlot(p.cfg, g, t)];
    assert P.EvictedCtxs(q) == {NAME};
  }

  /** The idle reap evicts the one session and removes nothing. */
  lemma IdleReap(r: Race, g: nat, session: nat, t: P.Time)
    requires r.pool.entries == map[NAME := UsedSlot(g, session, t)]
    ensures var q := Apply(r, Other(P.DoReap(IdleAt(r.pool.cfg, t), {NAME}, {})));
            && q.pool.entries == map[NAME := IdleSlot(r.pool.cfg, g, t)] && q.pool.cfg == r.pool.cfg
            && q.pool.nextGen == r.pool.nextGen && q == r.(pool := q.pool)
  {
    var p, now := r.pool, IdleAt(r.pool.cfg, t);
    IdleSweep(p, g, session, t);
    hide P.Sweep, P.EvictedCtxs;
    var q := P.Sweep(p, now, {NAME});
    assert P.MayDrop(q, {}) && q.entries - {} == q.entries;
    assert Removed(p, P.Forget(q, {}), now) == map[];
    assert r.lost + map[] == r.lost;
  }

  lemma ExpirySweep(p: P.Pool, g: nat, t: P.Time)
    requires p.entries == map[NAME := IdleSlot(p.cfg, g, t)]
    ensures var q := P.Sweep(p, GoneAt(p.cfg, t), {}); q.entries == map[] && q.cfg == p.cfg && q.nextGen == p.nextGen
  {
    assert P.Expired(p, GoneAt(p.cfg, t)) == {NAME};
  }

  lemma OneRemoved(p: P.Pool, q: P.Pool, e: P.Entry, now: P.Time)
    requires p.entries == map[NAME := e] && q.entries == map[] && !e.Live()
    ensures Removed(p, q, now) == map[Slot(NAME, e.gen) := e]
  {
    assert forall x :: Current(p, x) <==> x == Slot(NAME, e.gen);
  }

  /** The next one removes the slot. */
  lemma ExpiryReap(r: Race, g: nat, t: P.Time)
    requires r.pool.entries == map[NAME := IdleSlot(r.pool.cfg, g, t)]
    ensures var q := Apply(r, Other(P.DoReap(GoneAt(r.pool.cfg, t), {}, {})));
            && q.pool.entries == map[] && q.pool.cfg == r.pool.cfg && q.pool.nextGen == r.pool.nextGen
            && q == r.(pool := q.pool, lost := r.lost[Slot(NAME, g) := IdleSlot(r.pool.cfg, g, t)])
  {
    hide P.Sweep, Removed, Current;
    var p, now, e := r.pool, GoneAt(r.pool.cfg, t), IdleSlot(r.pool.cfg, g, t);
    ExpirySweep(p, g, t);
    var q := P.Sweep(p, now, {});
    assert P.EvictedCtxs(q) == {};
    assert P.MayDrop(q, {}) && q.entries - {} == q.entries;
    OneRemoved(p, P.Forget(q, {}), e, now);
    assert r.lost + map[Slot(NAME, g) := e] == r.lost[Slot(NAME, g) := e];
  }

  /** A run to a pool with these slots only, and nobody under way. */
  ghost predicate Rests(tr: Trace, cfg: P.Config, callers: nat, entries: map<P.Ctx, P.Entry>) {
    && Valid(tr) && tr.start == Begin(cfg, callers) && tr.race.pool.cfg == cfg && tr.race.callers == callers
    && tr.race.pool.entries == entries && tr.race.pending == map[]
  }

  lemma EmptyIsOpen(r: Race, c: P.Ctx, t: P.Time)
    requires r.pool.entries == map[] && r.pending == map[]
    ensures Open(r.pool) == {}
    ensures var q := Joined(r, c, t, Ready);
            && q.pool.entries == map[c := P.Entry("", r.pool.nextGen, true, None, 0, 0)] && OnePast(q)
            && Vacant(q.pool, Slot(c, r.pool.nextGen)) && q.pending == map[r.started := q.pending[r.started]]
            && q.pending[r.started] == Caller(Slot(c, r.pool.nextGen), t, Ready)
            && Opened(q, r.started).pool.entries == map[c := UsedSlot(r.pool.nextGen, r.pool.nextSession, t)]
            && Opened(q, r.started).pending == map[]
  {
  }

  /** A lookup nobody disturbs, in an empty pool. */
  lemma OpenOne(tr: Trace, cfg: P.Config, callers: nat) returns (tr': Trace)
    requires Rests(tr, cfg, callers, map[]) && cfg.maxActive > 0 && callers > 0
    ensures var g, session := tr.race.pool.nextGen, tr.race.pool.nextSession;
            && Rests(tr', cfg, callers, map[NAME := UsedSlot(g, session, tr.at)]) && Follows(tr, tr', tr.at)
            && tr'.race.lost == tr.race.lost && tr'.race.pool.nextGen == g + 1
    ensures tr.single ==> tr'.single
  {
    hide Valid, Open, Vacant, OnePast;
    EmptyIsOpen(tr.race, NAME, tr.at);
    tr' := Pass(tr, NAME, tr.at);
    tr' := Through(tr', tr.race.started);
  }

  /** The session goes idle. */
  lemma GoIdle(tr: Trace, cfg: P.Config, callers: nat, g: nat, session: nat) returns (tr': Trace)
    requires Rests(tr, cfg, callers, map[NAME := UsedSlot(g, session, tr.at)])
    ensures Rests(tr', cfg, callers, map[NAME := IdleSlot(cfg, g, tr.at)]) && Follows(tr, tr', IdleAt(cfg, tr.at))
    ensures tr'.race.lost == tr.race.lost && tr'.race.pool.nextGen == tr.race.pool.nextGen
  {
    hide Valid, Apply, OnePast;
    var step := Other(P.DoReap(IdleAt(cfg, tr.at), {NAME}, {}));
    IdleReap(tr.race, g, session, tr.at);
    tr' := Take(tr, step, Apply(tr.race, step));
  }

  /** A lookup passes the check on its slot, and the slot expires under it. */
  lemma PassAndLose(tr: Trace, cfg: P.Config, callers: nat, g: nat, t: P.Time) returns (tr': Trace)
    requires Rests(tr, cfg, callers, map[NAME := IdleSlot(cfg, g, t)]) && tr.at == IdleAt(cfg, t)
    requires cfg.maxActive > 0 && callers > 0
    ensures var s, now := Slot(NAME, g), GoneAt(cfg, t);
            && Valid(tr') && Follows(tr, tr', now) && tr'.race.callers == callers && tr'.race.pool.cfg == cfg
            && tr'.race.pool.entries == map[] && tr'.race.pool.nextGen == tr.race.pool.nextGen
            && tr'.race.pending == map[tr.race.started := Caller(s, now, Ready)]
            && tr'.race.lost == tr.race.lost[s := IdleSlot(cfg, g, t)]
  {
    hide Valid, Apply, OnePast;
    var now := GoneAt(cfg, t);
    assert Open(tr.race.pool) == {};
    tr' := Pass(tr, NAME, now);
    var step := Other(P.DoReap(now, {}, {}));
    ExpiryReap(tr'.race, g, t);
    tr' := Take(tr', step, Apply(tr'.race, step));
  }

  lemma StrandIs(r: Race, me: nat, s: Slot, e: P.Entry, now: P.Time, t: Tally)
    requires r.pool.entries == map[] && r.pending == map[me := Caller(s, now, Ready)]
    requires s in r.lost && r.lost[s] == e && !e.Live() && e.sessionID == ""
    ensures var q := Apply(r, Commit(me, true, P.Notifier));
            && q.pool == r.pool.(nextSession := r.pool.nextSession + 1) && q.pending == map[] && q.callers == r.callers
            && q.lost.Keys == r.lost.Keys && Strays(q) == Strays(r) + {s} && s !in Strays(r)
    ensures Count(t, r, Commit(me, true, P.Notifier)) == t.(stranded := t.stranded + 1)
  {
  }

  /** Nothing in the pool, nobody under way, k strays. */
  ghost predicate Empty(tr: Trace, cfg: P.Config, callers: nat, k: nat) {
    && Rests(tr, cfg, callers, map[]) && |Strays(tr.race)| == k && tr.tally == Tally(0, 0, k)
    && forall s :: s in tr.race.lost ==> s.gen < tr.race.pool.nextGen
  }

  lemma StrandOne(tr: Trace, cfg: P.Config, callers: nat, k: nat) returns (tr': Trace)
    requires Empty(tr, cfg, callers, k) && cfg.maxActive > 0 && callers > 0
    ensures Empty(tr', cfg, callers, k + 1) && tr'.at == GoneAt(cfg, tr.at)
  {
    hide Valid, Apply, OnePast, Count;
    var g, t := tr.race.pool.nextGen, tr.at;
    tr' := OpenOne(tr, cfg, callers);
    tr' := GoIdle(tr', cfg, callers, g, tr.race.pool.nextSession);
    var me := tr'.race.started;
    tr' := PassAndLose(tr', cfg, callers, g, t);
    assert Strays(tr'.race) == Strays(tr.race);
    StrandIs(tr'.race, me, Slot(NAME, g), IdleSlot(cfg, g, t), GoneAt(cfg, t), tr'.tally);
    Extends(tr', Commit(me, true, P.Notifier));
    tr' := Extend(tr', Commit(me, true, P.Notifier));
  }

  lemma {:induction false} StrandMany(cfg: P.Config, callers: nat, k: nat) returns (tr: Trace)
    requires cfg.maxActive > 0 && callers > 0
    ensures Empty(tr, cfg, callers, k)
  {
    if k == 0 {
      tr := Trace(Begin(cfg, callers), [], Begin(cfg, callers), Tally(0, 0, 0), 0, false);
      assert Strays(tr.race) == {};
    } else {
      tr := StrandMany(cfg, callers, k - 1);
      hide Empty;
      tr := StrandOne(tr, cfg, callers, k - 1);
    }
  }

  /** A single lookup at a time is enough to pass any bound by the third way, under
      either policy: it passes the check on an evicted slot, a reap removes the slot,
      and it installs its session on it all the same. After k times the pool is empty
      and k sessions are open. */
  lemma StrandedSessionsPileUp(cfg: P.Config, callers: nat, k: nat) returns (steps: seq<Step>, end: P.Time)
    requires cfg.maxActive > 0 && callers > 0
    ensures var r := Run(Begin(cfg, callers), steps);
            && r.pool.entries == map[] && r.pending == map[] && LiveSessions(r) == k
            && TallyOf(Begin(cfg, callers), steps) == Tally(0, 0, k) && Forward(steps, end)
  {
    hide Run, TallyOf, Forward;
    var tr := StrandMany(cfg, callers, k);
    steps, end := tr.steps, tr.at;
    assert Open(tr.race.pool) == {};
  }
}
