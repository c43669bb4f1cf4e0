/** The session pool: one provider session per context, a persisted shadow that
    lets a restarted agent resume, a cap on live sessions and retention of the
    evicted ones. */
module SessionPools {
  import opened Options
  import opened Sequences

  type Ctx = string
  type Time = int

  /** One context's slot. `gen` tells this slot, and its turn gate, from later ones
      under the same context; a slot is born active and without a session. */
  datatype Entry = Entry(
    sessionID: string,
    gen: nat,
    active: bool,
    session: Option<nat>,
    lastUsed: Time,
    evictedAt: Time)
  {
    predicate Live() {
      active && session.Some?
    }

    function Evict(now: Time): Entry {
      this.(session := None, active := false, evictedAt := now)
    }
  }

  /** What the shadow file keeps of a slot; a zero evictedAt means none was set. */
  datatype Rec = Rec(sessionID: string, active: bool, lastUsed: Time, evictedAt: Time)

  datatype Policy = Reject | EvictLRU

  datatype Config = Config(maxActive: int, policy: Policy, maxEvicted: int, idleTTL: Time, evictedTTL: Time)

  datatype Pool = Pool(
    cfg: Config,
    entries: map<Ctx, Entry>,
    shadow: map<Ctx, Rec>,
    nextGen: nat,
    nextSession: nat)

  function NewPool(cfg: Config): Pool {
    Pool(cfg, map[], map[], 0, 0)
  }

  function LiveCtxs(p: Pool): set<Ctx> {
    set c | c in p.entries && p.entries[c].Live()
  }

  function EvictedCtxs(p: Pool): set<Ctx> {
    set c | c in p.entries && !p.entries[c].active
  }

  // ----- Lookups -----

  /** The first critical section: a slot exists afterwards. */
  function WithEntry(p: Pool, c: Ctx): Pool {
    if c in p.entries then p
    else p.(entries := p.entries[c := Entry("", p.nextGen, true, None, 0, 0)], nextGen := p.nextGen + 1)
  }

  /** A session found dead is closed; its slot keeps the id to resume from. */
  function DropDead(p: Pool, c: Ctx, now: Time): Pool
    requires c in p.entries
  {
    if p.entries[c].Live() then p.(entries := p.entries[c := p.entries[c].Evict(now)]) else p
  }

  predicate AtCap(p: Pool, c: Ctx) {
    p.cfg.maxActive > 0 && |LiveCtxs(p) - {c}| >= p.cfg.maxActive
  }

  /** v is a least recently used live context other than c. */
  predicate IsLRU(p: Pool, c: Ctx, v: Ctx) {
    && v in LiveCtxs(p) && v != c
    && forall u :: u in LiveCtxs(p) && u != c ==> p.entries[v].lastUsed <= p.entries[u].lastUsed
  }

  /** evictForCap: closes the victim whatever its gate says. */
  function EvictForCap(p: Pool, v: Ctx, now: Time): Pool {
    if v !in p.entries || !p.entries[v].Live() then p
    else
      var e := p.entries[v];
      p.(entries := p.entries[v := e.Evict(now)], shadow := p.shadow[v := Rec(e.sessionID, false, e.lastUsed, now)])
  }

  /** What the session factory answers. A notifier-backed session reports its id
      later; any other knows it at once. */
  datatype Made = Fails | Notifier | Sync(id: string)

  function Install(p: Pool, c: Ctx, now: Time, made: Made): Pool
    requires c in p.entries && !made.Fails?
  {
    var e := p.entries[c];
    var sid := if made.Sync? then made.id else e.sessionID;
    var e' := e.(sessionID := sid, session := Some(p.nextSession), active := true, lastUsed := now);
    p.(entries := p.entries[c := e'],
       nextSession := p.nextSession + 1,
       shadow := if sid != "" then p.shadow[c := Rec(sid, true, now, 0)] else p.shadow)
  }

  datatype Lookup = Hit | Rejected | FactoryFailed | Installed(resumeID: string)

  predicate Hits(p: Pool, c: Ctx, healthy: bool) {
    c in p.entries && p.entries[c].Live() && healthy
  }

  /** The pool a lookup that missed checks the cap on: its slot is there and holds
      no session. */
  function Missed(p: Pool, c: Ctx, now: Time): (r: Pool)
    ensures c in r.entries && !r.entries[c].Live() && r.cfg == p.cfg
  {
    DropDead(WithEntry(p, c), c, now)
  }

  /** The same pool after the cap check. */
  function Checked(p: Pool, c: Ctx, now: Time, victim: Ctx): (r: Pool)
    ensures c in r.entries && r.cfg == p.cfg
  {
    var m := Missed(p, c, now);
    if AtCap(m, c) && p.cfg.policy.EvictLRU? then EvictForCap(m, victim, now) else m
  }

  /** The whole of LookupOrCreate as one step. `healthy` is what a cached session
      says of itself and `victim` the context the cap scan settled on. */
  function LookedUp(p: Pool, c: Ctx, now: Time, healthy: bool, victim: Ctx, made: Made): (Pool, Lookup) {
    if Hits(p, c, healthy) then
      (p.(entries := p.entries[c := p.entries[c].(lastUsed := now)]), Hit)
    else
      var q := Checked(p, c, now, victim);
      if AtCap(Missed(p, c, now), c) && p.cfg.policy.Reject? then (q, Rejected)
      else if made.Fails? then (q, FactoryFailed)
      else (Install(q, c, now, made), Installed(q.entries[c].sessionID))
  }

  // ----- Callbacks -----

  /** handleSessionIDKnown, which ignores a session that is not the slot's own. */
  predicate Accepts(p: Pool, c: Ctx, owner: nat, id: string) {
    id != "" && c in p.entries && p.entries[c].session == Some(owner) && p.entries[c].sessionID != id
  }

  function IDKnown(p: Pool, c: Ctx, owner: nat, id: string): Pool {
    if !Accepts(p, c, owner, id) then p
    else
      var e := p.entries[c];
      p.(entries := p.entries[c := e.(sessionID := id)], shadow := p.shadow[c := Rec(id, true, e.lastUsed, 0)])
  }

  function TurnFinished(p: Pool, c: Ctx, owner: nat, now: Time): Pool {
    if c in p.entries && p.entries[c].active && p.entries[c].session == Some(owner)
    then p.(entries := p.entries[c := p.entries[c].(lastUsed := now)])
    else p
  }

  // ----- The reaper -----

  predicate Idles(p: Pool, e: Entry, now: Time) {
    e.Live() && now - e.lastUsed > p.cfg.idleTTL
  }

  predicate Expires(p: Pool, e: Entry, now: Time) {
    !e.active && now - e.evictedAt > p.cfg.evictedTTL
  }

  /** Contexts whose sessions the sweep closes: idle for too long, and their gate
      gave the eviction lease. */
  function Swept(p: Pool, now: Time, leased: set<Ctx>): set<Ctx> {
    set c | c in p.entries && Idles(p, p.entries[c], now) && c in leased
  }

  function Expired(p: Pool, now: Time): set<Ctx> {
    set c | c in p.entries && Expires(p, p.entries[c], now)
  }

  function Sweep(p: Pool, now: Time, leased: set<Ctx>): Pool {
    var swept, expired := Swept(p, now, leased), Expired(p, now);
    p.(entries := map c | c in p.entries && c !in expired ::
                    if c in swept then p.entries[c].Evict(now) else p.entries[c],
       shadow := map c | c in p.shadow.Keys + swept && c !in expired ::
                   if c in swept then Rec(p.entries[c].sessionID, false, p.entries[c].lastUsed, now) else p.shadow[c])
  }

  /** `drop` is an allowed choice of evicted contexts to forget: as many as exceed
      the bound, and none evicted later than one that is kept. */
  predicate MayDrop(p: Pool, drop: set<Ctx>) {
    if p.cfg.maxEvicted <= 0 || |EvictedCtxs(p)| <= p.cfg.maxEvicted then drop == {}
    else
      && drop <= EvictedCtxs(p) && |drop| == |EvictedCtxs(p)| - p.cfg.maxEvicted
      && forall d, k :: d in drop && k in EvictedCtxs(p) - drop ==> p.entries[d].evictedAt <= p.entries[k].evictedAt
  }

  function Forget(p: Pool, drop: set<Ctx>): Pool {
    p.(entries := p.entries - drop, shadow := p.shadow - drop)
  }

  function Reap(p: Pool, now: Time, leased: set<Ctx>, drop: set<Ctx>): Pool {
    Forget(Sweep(p, now, leased), drop)
  }

  // ----- Crash and restart -----

  /** The process is gone; what the shadow file knows comes back as evicted slots. */
  function Rehydrate(p: Pool, now: Time): Pool {
    var back := set c | c in p.shadow && p.shadow[c].sessionID != "";
    p.(entries := map c | c in back ::
         Entry(p.shadow[c].sessionID, p.nextGen, false, None, p.shadow[c].lastUsed,
               if p.shadow[c].evictedAt == 0 then now else p.shadow[c].evictedAt),
       shadow := map c | c in back ::
         Rec(p.shadow[c].sessionID, false, p.shadow[c].lastUsed,
             if p.shadow[c].evictedAt == 0 then now else p.shadow[c].evictedAt),
       nextGen := p.nextGen + 1)
  }

  // ----- Histories -----

  datatype Step =
    | DoLookup(c: Ctx, now: Time, healthy: bool, victim: Ctx, made: Made)
    | DoIDKnown(c: Ctx, owner: nat, id: string)
    | DoTurnFinished(c: Ctx, owner: nat, now: Time)
    | DoReap(now: Time, leased: set<Ctx>, drop: set<Ctx>)
    | DoCrash(now: Time)

  /** A step whose choices are ones the code can make. */
  predicate Possible(p: Pool, step: Step) {
    match step
    case DoLookup(c, now, healthy, victim, made) =>
      var m := Missed(p, c, now);
      !Hits(p, c, healthy) && AtCap(m, c) ==> IsLRU(m, c, victim)
    case DoReap(now, leased, drop) => MayDrop(Sweep(p, now, leased), drop)
    case _ => true
  }

  /** The pool beside the id it last accepted for each context it has not
      forgotten since. */
  datatype History = History(pool: Pool, accepted: map<Ctx, string>)

  function Apply(h: History, step: Step): History {
    if !Possible(h.pool, step) then h
    else
      match step
      case DoLookup(c, now, healthy, victim, made) =>
        var (p, r) := LookedUp(h.pool, c, now, healthy, victim, made);
        History(p, if r.Installed? && made.Sync? then h.accepted[c := made.id] else h.accepted)
      case DoIDKnown(c, owner, id) =>
        History(IDKnown(h.pool, c, owner, id),
                if Accepts(h.pool, c, owner, id) then h.accepted[c := id] else h.accepted)
      case DoTurnFinished(c, owner, now) => h.(pool := TurnFinished(h.pool, c, owner, now))
      case DoReap(now, leased, drop) =>
        History(Reap(h.pool, now, leased, drop), h.accepted - (Expired(h.pool, now) + drop))
      case DoCrash(now) => h.(pool := Rehydrate(h.pool, now))
  }

  function Run(h: History, steps: seq<Step>): History {
    if steps == [] then h else Apply(Run(h, steps[..|steps| - 1]), steps[|steps| - 1])
  }

  /** The id the next lookup of c hands to the factory. */
  function ResumeID(p: Pool, c: Ctx): string {
    if c in p.entries then p.entries[c].sessionID else ""
  }

  function ShadowID(p: Pool, c: Ctx): string {
    if c in p.shadow then p.shadow[c].sessionID else ""
  }

  function AcceptedID(h: History, c: Ctx): string {
    if c in h.accepted then h.accepted[c] else ""
  }

  /** The live pool, its shadow and the accepted ids say the same of every context. */
  ghost predicate Agrees(h: History) {
    forall c :: ResumeID(h.pool, c) == ShadowID(h.pool, c) == AcceptedID(h, c)
  }

  predicate NoAnonymous(step: Step) {
    step.DoLookup? && step.made.Sync? ==> step.made.id != ""
  }

  // ----- The shadow agrees with the pool -----

  /** The one lookup after which pool and shadow part: a session that knows at
      once that it has no id replaces one that had an id. */
  predicate Forgetful(h: History, step: Step) {
    && step.DoLookup? && step.made == Sync("") && Possible(h.pool, step)
    && !Hits(h.pool, step.c, step.healthy)
    && !(AtCap(Missed(h.pool, step.c, step.now), step.c) && h.pool.cfg.policy.Reject?)
    && ResumeID(h.pool, step.c) != ""
  }

  lemma CheckedIDs(p: Pool, c: Ctx, now: Time, v: Ctx, d: Ctx)
    requires ResumeID(p, v) == ShadowID(p, v)
    ensures var q := Checked(p, c, now, v); ResumeID(q, d) == ResumeID(p, d) && ShadowID(q, d) == ShadowID(p, d)
  {
    hide AtCap;
  }

  lemma InstallIDs(p: Pool, c: Ctx, now: Time, made: Made, d: Ctx)
    requires c in p.entries && !made.Fails? && ResumeID(p, c) == ShadowID(p, c)
    ensures var p' := Install(p, c, now, made);
            && (d != c ==> ResumeID(p', d) == ResumeID(p, d) && ShadowID(p', d) == ShadowID(p, d))
            && ResumeID(p', c) == (if made.Sync? then made.id else ResumeID(p, c))
            && ShadowID(p', c) == (if made == Sync("") then ShadowID(p, c) else ResumeID(p', c))
  {
  }

  /** What a lookup does to the id of each context, in the pool and in the shadow. */
  lemma LookupIDs(p: Pool, c: Ctx, now: Time, healthy: bool, v: Ctx, made: Made, d: Ctx)
    requires forall e :: ResumeID(p, e) == ShadowID(p, e)
    ensures var (p', r) := LookedUp(p, c, now, healthy, v, made);
            var told := r.Installed? && made.Sync? && d == c;
            && ResumeID(p', d) == (if told then made.id else ResumeID(p, d))
            && ShadowID(p', d) == (if told && made.id != "" then made.id else ShadowID(p, d))
            && (r.Installed? ==> r.resumeID == ResumeID(p, c))
  {
    hide AtCap, Checked, Install;
    CheckedIDs(p, c, now, v, d);
    CheckedIDs(p, c, now, v, c);
    if !Hits(p, c, healthy) && !made.Fails? { InstallIDs(Checked(p, c, now, v), c, now, made, d); }
  }

  lemma ReapIDs(p: Pool, now: Time, leased: set<Ctx>, drop: set<Ctx>, d: Ctx)
    requires ResumeID(p, d) == ShadowID(p, d)
    ensures var p' := Reap(p, now, leased, drop);
            ResumeID(p', d) == ShadowID(p', d) == (if d in Expired(p, now) + drop then "" else ResumeID(p, d))
  {
  }

  lemma CrashIDs(p: Pool, now: Time, d: Ctx)
    ensures var p' := Rehydrate(p, now); ResumeID(p', d) == ShadowID(p', d) == ShadowID(p, d)
  {
  }

  lemma CallbackAgrees(h: History, c: Ctx, owner: nat, id: string, now: Time)
    requires Agrees(h)
    ensures Agrees(Apply(h, DoIDKnown(c, owner, id))) && Agrees(Apply(h, DoTurnFinished(c, owner, now)))
  {
    var h', g := Apply(h, DoIDKnown(c, owner, id)), Apply(h, DoTurnFinished(c, owner, now));
    forall d ensures ResumeID(h'.pool, d) == ShadowID(h'.pool, d) == AcceptedID(h', d) {
      assert ResumeID(h.pool, d) == ShadowID(h.pool, d) == AcceptedID(h, d);
    }
    forall d ensures ResumeID(g.pool, d) == ShadowID(g.pool, d) == AcceptedID(g, d) {
      assert ResumeID(h.pool, d) == ShadowID(h.pool, d) == AcceptedID(h, d);
    }
  }

  lemma OtherStepAgrees(h: History, step: Step)
    requires Agrees(h) && !step.DoLookup?
    ensures Agrees(Apply(h, step))
  {
    if step.DoIDKnown? {
      CallbackAgrees(h, step.c, step.owner, step.id, 0);
    } else if step.DoTurnFinished? {
      CallbackAgrees(h, step.c, step.owner, "", step.now);
    } else if Possible(h.pool, step) {
      hide Reap, Rehydrate, Possible, Expired;
      var h' := Apply(h, step);
      forall d ensures ResumeID(h'.pool, d) == ShadowID(h'.pool, d) == AcceptedID(h', d) {
        assert ResumeID(h.pool, d) == ShadowID(h.pool, d) == AcceptedID(h, d);
        if step.DoReap? {
          ReapIDs(h.pool, step.now, step.leased, step.drop, d);
        } else {
          CrashIDs(h.pool, step.now, d);
        }
      }
    }
  }

  lemma InstalledIff(p: Pool, c: Ctx, now: Time, healthy: bool, v: Ctx, made: Made)
    ensures LookedUp(p, c, now, healthy, v, made).1.Installed? <==>
            !Hits(p, c, healthy) && !(AtCap(Missed(p, c, now), c) && p.cfg.policy.Reject?) && !made.Fails?
  {
    hide AtCap, Missed, Checked;
  }

  /** Exactly when one step keeps pool, shadow and accepted ids together. */
  lemma StepAgreesIff(h: History, step: Step)
    requires Agrees(h)
    ensures Agrees(Apply(h, step)) <==> !Forgetful(h, step)
  {
    if !step.DoLookup? {
      OtherStepAgrees(h, step);
    } else if Possible(h.pool, step) {
      var h' := Apply(h, step);
      assert ResumeID(h.pool, step.c) == AcceptedID(h, step.c);
      LookupIDs(h.pool, step.c, step.now, step.healthy, step.victim, step.made, step.c);
      InstalledIff(h.pool, step.c, step.now, step.healthy, step.victim, step.made);
      hide Possible, LookedUp, AtCap, Missed, Hits;
      if !Forgetful(h, step) {
        forall d ensures ResumeID(h'.pool, d) == ShadowID(h'.pool, d) == AcceptedID(h', d) {
          LookupIDs(h.pool, step.c, step.now, step.healthy, step.victim, step.made, d);
        }
      }
    }
  }

  lemma {:induction false} EveryRunAgrees(cfg: Config, steps: seq<Step>)
    requires forall step :: step in steps ==> NoAnonymous(step)
    ensures Agrees(Run(History(NewPool(cfg), map[]), steps))
  {
    hide Agrees, Apply, Possible, LookedUp;
    var h := History(NewPool(cfg), map[]);
    if steps == [] {
      assert Agrees(h) by { NewPoolAgrees(cfg); }
    } else {
      var prefix, last := steps[..|steps| - 1], steps[|steps| - 1];
      EveryRunAgrees(cfg, prefix);
      assert last in steps;
      StepAgreesIff(Run(h, prefix), last);
    }
  }

  lemma NewPoolAgrees(cfg: Config)
    ensures Agrees(History(NewPool(cfg), map[]))
  {
  }

  /** After any history, with crashes at any point in it: kill the process, bring
      it back, and the next lookup of any context hands the factory the id the
      pool accepted last for it, or none if it never accepted one or forgot it. */
  lemma RestartResumesLatest(
      cfg: Config, steps: seq<Step>, crash: Time, c: Ctx, now: Time, healthy: bool, victim: Ctx, made: Made)
    requires forall step :: step in steps ==> NoAnonymous(step)
    ensures var h := Run(History(NewPool(cfg), map[]), steps);
            var r := LookedUp(Rehydrate(h.pool, crash), c, now, healthy, victim, made).1;
            r != Hit && (r.Installed? ==> r.resumeID == AcceptedID(h, c))
  {
    EveryRunAgrees(cfg, steps);
    var h := Run(History(NewPool(cfg), map[]), steps);
    var p := Rehydrate(h.pool, crash);
    forall d ensures ResumeID(p, d) == ShadowID(p, d) { CrashIDs(h.pool, crash, d); }
    CrashIDs(h.pool, crash, c);
    LookupIDs(p, c, now, healthy, victim, made, c);
    assert ShadowID(h.pool, c) == AcceptedID(h, c);
  }

  /** A one-shot session, which never has an id, in the place of one that did: the
      running pool forgets the id, a restarted one would resume it. */
  lemma AnonymousSessionLeavesAStaleShadow(cfg: Config, id: string)
    requires id != "" && cfg.maxActive == 0
    ensures var c := "ctx";
            var h := Run(History(NewPool(cfg), map[]),
              [DoLookup(c, 1, true, "", Sync(id)), DoLookup(c, 2, false, "", Sync(""))]);
            ResumeID(h.pool, c) == AcceptedID(h, c) == "" && ResumeID(Rehydrate(h.pool, 3), c) == id
  {
    var c := "ctx";
    var first, second := DoLookup(c, 1, true, "", Sync(id)), DoLookup(c, 2, false, "", Sync(""));
    var h0 := History(NewPool(cfg), map[]);
    var h1 := Apply(h0, first);
    assert h1.pool.entries == map[c := Entry(id, 0, true, Some(0), 1, 0)];
    assert h1.pool.shadow == map[c := Rec(id, true, 1, 0)];
    var h2 := Apply(h1, second);
    assert c in h2.pool.entries && h2.pool.entries[c].sessionID == "" && h2.pool.shadow == h1.pool.shadow;
    assert Run(h0, [first, second]) == h2 by {
      hide Apply;
      assert Run(h0, []) == h0;
      assert [first][..0] == [] && [first, second][..1] == [first];
      assert Run(h0, [first]) == h1;
    }
    hide Apply, Run;
  }

  // ----- Late callbacks -----

  /** `owner` was made by this pool and is not, or no longer, the session of c. */
  predicate Retired(p: Pool, c: Ctx, owner: nat) {
    owner < p.nextSession && !(c in p.entries && p.entries[c].session == Some(owner))
  }

  lemma LookupKeepsRetired(p: Pool, c: Ctx, now: Time, healthy: bool, v: Ctx, made: Made, d: Ctx, owner: nat)
    requires Retired(p, d, owner)
    ensures Retired(LookedUp(p, c, now, healthy, v, made).0, d, owner)
  {
    assert Retired(Checked(p, c, now, v), d, owner) by { hide AtCap; }
    hide AtCap, Checked;
  }

  lemma StepKeepsRetired(h: History, step: Step, c: Ctx, owner: nat)
    requires Retired(h.pool, c, owner)
    ensures Retired(Apply(h, step).pool, c, owner)
  {
    if step.DoLookup? {
      LookupKeepsRetired(h.pool, step.c, step.now, step.healthy, step.victim, step.made, c, owner);
    }
  }

  /** Once a session has lost its slot, whatever happens afterwards, its id
      callback and its end-of-turn callback change nothing. */
  lemma {:induction false} RetiredSessionIsIgnored(
      h: History, steps: seq<Step>, c: Ctx, owner: nat, id: string, now: Time)
    requires Retired(h.pool, c, owner)
    ensures Retired(Run(h, steps).pool, c, owner)
    ensures var h' := Run(h, steps);
            Apply(h', DoIDKnown(c, owner, id)) == h' == Apply(h', DoTurnFinished(c, owner, now))
  {
    if steps != [] {
      var prefix, last := steps[..|steps| - 1], steps[|steps| - 1];
      RetiredSessionIsIgnored(h, prefix, c, owner, id, now);
      StepKeepsRetired(Run(h, prefix), last, c, owner);
    }
    hide Run;
  }

  /** A lookup hands out the session it finds exactly when that is alive and says it is
      well; and then it is the same one. Otherwise the slot does not keep it: what is
      there afterwards is none, or a session made for this lookup. */
  lemma HandedOutIff(p: Pool, c: Ctx, now: Time, healthy: bool, v: Ctx, made: Made)
    ensures var (q, r) := LookedUp(p, c, now, healthy, v, made);
            && (r == Hit <==> c in LiveCtxs(p) && healthy)
            && c in q.entries
            && (r == Hit ==> q.entries[c] == p.entries[c].(lastUsed := now))
            && (r.Installed? ==> q.entries[c].session == Some(p.nextSession) && q.entries[c].active)
            && (r == Rejected || r == FactoryFailed ==> c !in LiveCtxs(q))
  {
    hide AtCap, IsLRU;
    if !Hits(p, c, healthy) { CheckedFree(p, c, now, v); }
    hide Checked;
  }

  lemma CheckedFree(p: Pool, c: Ctx, now: Time, v: Ctx)
    ensures var q := Checked(p, c, now, v); !q.entries[c].Live() && q.nextSession == p.nextSession
  {
    hide AtCap;
  }

  // ----- The cap on live sessions -----

  predicate WithinCap(p: Pool) {
    p.cfg.maxActive > 0 ==> |LiveCtxs(p)| <= p.cfg.maxActive
  }

  lemma FewerFit<T>(a: set<T>, b: set<T>)
    requires a <= b
    ensures |a| <= |b|
  {
    if a != {} {
      var x :| x in a;
      FewerFit(a - {x}, b - {x});
    }
  }

  lemma CheckedLive(p: Pool, c: Ctx, now: Time, v: Ctx)
    ensures LiveCtxs(Missed(p, c, now)) == LiveCtxs(p) - {c}
    ensures LiveCtxs(Checked(p, c, now, v)) ==
            LiveCtxs(p) - {c} - (if AtCap(Missed(p, c, now), c) && p.cfg.policy.EvictLRU? then {v} else {})
  {
    hide AtCap;
  }

  lemma InstallLive(p: Pool, c: Ctx, now: Time, made: Made)
    requires c in p.entries && !made.Fails?
    ensures LiveCtxs(Install(p, c, now, made)) == LiveCtxs(p) + {c}
  {
  }

  lemma Fewer(live: set<Ctx>, c: Ctx, v: Ctx)
    ensures |live - {c}| <= |live|
    ensures v in live - {c} ==> |live - {c} - {v}| < |live|
  {
    FewerFit(live - {c}, live);
  }

  lemma CheckedHasRoom(p: Pool, c: Ctx, now: Time, v: Ctx)
    requires WithinCap(p) && p.cfg.maxActive > 0
    requires AtCap(Missed(p, c, now), c) ==> IsLRU(Missed(p, c, now), c, v)
    ensures |LiveCtxs(Checked(p, c, now, v))| <= p.cfg.maxActive
    ensures !(AtCap(Missed(p, c, now), c) && p.cfg.policy.Reject?) ==>
            |LiveCtxs(Checked(p, c, now, v))| < p.cfg.maxActive
  {
    var m := Missed(p, c, now);
    assert AtCap(m, c) ==> v in LiveCtxs(m);
    hide Missed, Checked, LiveCtxs, IsLRU;
    CheckedLive(p, c, now, v);
    Fewer(LiveCtxs(p), c, v);
    if AtCap(m, c) {
      assert LiveCtxs(Checked(p, c, now, v)) == LiveCtxs(p) - {c} - (if p.cfg.policy.EvictLRU? then {v} else {});
    } else {
      assert LiveCtxs(Checked(p, c, now, v)) == LiveCtxs(m) - {c};
    }
  }

  lemma HitKeepsLive(p: Pool, c: Ctx, now: Time, healthy: bool, v: Ctx, made: Made)
    requires Hits(p, c, healthy)
    ensures LiveCtxs(LookedUp(p, c, now, healthy, v, made).0) == LiveCtxs(p)
  {
    hide Missed, Checked;
  }

  /** A lookup that gets past the cap leaves room for its own session. */
  lemma LookupKeepsCap(p: Pool, c: Ctx, now: Time, healthy: bool, v: Ctx, made: Made)
    requires WithinCap(p) && Possible(p, DoLookup(c, now, healthy, v, made))
    ensures WithinCap(LookedUp(p, c, now, healthy, v, made).0)
  {
    hide Missed, Checked, LiveCtxs, AtCap, IsLRU, Hits;
    if Hits(p, c, healthy) {
      HitKeepsLive(p, c, now, healthy, v, made);
    } else if p.cfg.maxActive > 0 {
      CheckedHasRoom(p, c, now, v);
      if !made.Fails? { InstallLive(Checked(p, c, now, v), c, now, made); }
    }
  }

  lemma OtherStepKeepsCap(h: History, step: Step)
    requires WithinCap(h.pool) && !step.DoLookup?
    ensures WithinCap(Apply(h, step).pool)
  {
    FewerFit(LiveCtxs(Apply(h, step).pool), LiveCtxs(h.pool));
  }

  /** With lookups taken one at a time, live sessions never exceed the cap, under
      either policy. */
  lemma {:induction false} LiveSessionsWithinCap(cfg: Config, steps: seq<Step>)
    ensures var p := Run(History(NewPool(cfg), map[]), steps).pool;
            p.cfg == cfg && (cfg.maxActive > 0 ==> |LiveCtxs(p)| <= cfg.maxActive)
  {
    var h := History(NewPool(cfg), map[]);
    if steps == [] {
      assert LiveCtxs(h.pool) == {};
    } else {
      var prefix, step := steps[..|steps| - 1], steps[|steps| - 1];
      LiveSessionsWithinCap(cfg, prefix);
      var g := Run(h, prefix);
      StepKeepsCfg(g, step);
      if step.DoLookup? {
        if Possible(g.pool, step) { LookupKeepsCap(g.pool, step.c, step.now, step.healthy, step.victim, step.made); }
      } else {
        OtherStepKeepsCap(g, step);
      }
    }
  }

  lemma StepKeepsCfg(h: History, step: Step)
    ensures Apply(h, step).pool.cfg == h.pool.cfg
  {
  }

  lemma CheckedVictim(p: Pool, c: Ctx, now: Time, v: Ctx, u: Ctx)
    requires AtCap(Missed(p, c, now), c) ==> IsLRU(Missed(p, c, now), c, v)
    requires u in LiveCtxs(p) && u != c && u !in LiveCtxs(Checked(p, c, now, v))
    ensures u == v && p.cfg.policy == EvictLRU && |LiveCtxs(p) - {c}| >= p.cfg.maxActive > 0
    ensures forall w :: w in LiveCtxs(p) && w != c ==> p.entries[u].lastUsed <= p.entries[w].lastUsed
  {
    CheckedLive(p, c, now, v);
    var m := Missed(p, c, now);
    assert forall w :: w in LiveCtxs(p) && w != c ==> w in LiveCtxs(m) && m.entries[w] == p.entries[w];
    hide Missed, Checked;
    assert LiveCtxs(m) - {c} == LiveCtxs(p) - {c};
  }

  /** Under evict-lru a lookup closes at most one other session, only at the cap,
      and one no other live session of another context was used before. */
  lemma CapEvictsOnlyTheLRU(p: Pool, c: Ctx, now: Time, healthy: bool, v: Ctx, made: Made, u: Ctx)
    requires Possible(p, DoLookup(c, now, healthy, v, made))
    requires u in LiveCtxs(p) && u != c && u !in LiveCtxs(LookedUp(p, c, now, healthy, v, made).0)
    ensures u == v && p.cfg.policy == EvictLRU && |LiveCtxs(p) - {c}| >= p.cfg.maxActive > 0
    ensures forall w :: w in LiveCtxs(p) && w != c ==> p.entries[u].lastUsed <= p.entries[w].lastUsed
  {
    if !Hits(p, c, healthy) {
      var q := Checked(p, c, now, v);
      assert u !in LiveCtxs(q) by {
        hide Checked, Missed, AtCap;
        if !made.Fails? { InstallLive(q, c, now, made); }
      }
      CheckedVictim(p, c, now, v, u);
    }
  }

  // ----- What counts as a use -----

  /** A lookup that returns a session uses it, and so does a turn that ends on it. */
  predicate Uses(h: History, step: Step) {
    match step
    case DoLookup(c, now, healthy, victim, made) =>
      && Possible(h.pool, step)
      && (LookedUp(h.pool, c, now, healthy, victim, made).1.Hit?
          || LookedUp(h.pool, c, now, healthy, victim, made).1.Installed?)
    case DoTurnFinished(c, owner, now) => c in LiveCtxs(h.pool) && h.pool.entries[c].session == Some(owner)
    case _ => false
  }

  /** When each context was used last, read off the steps. */
  function LastUses(h: History, steps: seq<Step>): map<Ctx, Time> {
    if steps == [] then map[]
    else
      var prefix, last := steps[..|steps| - 1], steps[|steps| - 1];
      if Uses(Run(h, prefix), last) then LastUses(h, prefix)[last.c := last.now] else LastUses(h, prefix)
  }

  /** The field by which the pool judges idleness tells every live session's last use. */
  predicate Dated(p: Pool, uses: map<Ctx, Time>) {
    forall c :: c in LiveCtxs(p) ==> c in uses && p.entries[c].lastUsed == uses[c]
  }

  lemma CheckedDates(p: Pool, c: Ctx, now: Time, v: Ctx, uses: map<Ctx, Time>)
    requires Dated(p, uses)
    ensures Dated(Checked(p, c, now, v), uses)
    ensures c !in LiveCtxs(Checked(p, c, now, v))
  {
    hide AtCap;
  }

  lemma LookupDates(p: Pool, c: Ctx, now: Time, healthy: bool, v: Ctx, made: Made, uses: map<Ctx, Time>)
    requires Dated(p, uses)
    ensures var (q, r) := LookedUp(p, c, now, healthy, v, made);
            Dated(q, if r.Hit? || r.Installed? then uses[c := now] else uses)
  {
    CheckedDates(p, c, now, v, uses);
    hide AtCap, Checked, Missed;
  }

  lemma StepDates(h: History, step: Step, uses: map<Ctx, Time>)
    requires Dated(h.pool, uses)
    ensures Dated(Apply(h, step).pool, if Uses(h, step) then uses[step.c := step.now] else uses)
  {
    if step.DoLookup? && Possible(h.pool, step) {
      LookupDates(h.pool, step.c, step.now, step.healthy, step.victim, step.made, uses);
      hide LookedUp, Possible;
    } else {
      hide LookedUp, MayDrop;
    }
  }

  lemma {:induction false} EveryRunDates(cfg: Config, steps: seq<Step>)
    ensures var h := History(NewPool(cfg), map[]);
            Dated(Run(h, steps).pool, LastUses(h, steps)) && Run(h, steps).pool.cfg == cfg
  {
    hide Apply, Uses;
    var h := History(NewPool(cfg), map[]);
    if steps == [] {
      assert LiveCtxs(h.pool) == {};
    } else {
      var prefix, last := steps[..|steps| - 1], steps[|steps| - 1];
      EveryRunDates(cfg, prefix);
      StepDates(Run(h, prefix), last, LastUses(h, prefix));
      StepKeepsCfg(Run(h, prefix), last);
      hide Dated;
    }
  }

  /** After any history, a lookup that closes another session closes the one whose last
      hit, installation or finished turn is the longest ago. */
  lemma VictimWasUsedFirst(
      cfg: Config, steps: seq<Step>, c: Ctx, now: Time, healthy: bool, v: Ctx, made: Made, u: Ctx, w: Ctx)
    requires var p := Run(History(NewPool(cfg), map[]), steps).pool;
             && Possible(p, DoLookup(c, now, healthy, v, made))
             && u in LiveCtxs(p) && u != c && u !in LiveCtxs(LookedUp(p, c, now, healthy, v, made).0)
             && w in LiveCtxs(p) && w != c
    ensures var uses := LastUses(History(NewPool(cfg), map[]), steps);
            u in uses && w in uses && uses[u] <= uses[w]
  {
    EveryRunDates(cfg, steps);
    hide Possible, LookedUp, LiveCtxs, Run, LastUses;
    var h := History(NewPool(cfg), map[]);
    CapEvictsOnlyTheLRU(Run(h, steps).pool, c, now, healthy, v, made, u);
  }

  /** After any history, a reap closes exactly the sessions that have not been used for
      longer than the idle time and whose gate gave its lease. */
  lemma ReapClosesExactlyTheUnused(cfg: Config, steps: seq<Step>, now: Time, leased: set<Ctx>, drop: set<Ctx>, c: Ctx)
    requires var p := Run(History(NewPool(cfg), map[]), steps).pool;
             MayDrop(Sweep(p, now, leased), drop) && c in LiveCtxs(p)
    ensures var h := History(NewPool(cfg), map[]);
            var uses := LastUses(h, steps);
            && c in uses
            && (c !in LiveCtxs(Apply(Run(h, steps), DoReap(now, leased, drop)).pool) <==>
                now - uses[c] > cfg.idleTTL && c in leased)
  {
    var h := History(NewPool(cfg), map[]);
    var p := Run(h, steps).pool;
    EveryRunDates(cfg, steps);
    hide Run, LastUses, MayDrop, Sweep;
    ReapBoundsTheEvicted(p, now, leased, drop);
    hide Reap;
  }

  // ----- What a reap leaves -----

  lemma SweepSets(p: Pool, now: Time, leased: set<Ctx>)
    ensures var q := Sweep(p, now, leased);
            && q.cfg == p.cfg
            && LiveCtxs(q) == LiveCtxs(p) - Swept(p, now, leased)
  {
  }

  lemma Removed(all: set<Ctx>, out: set<Ctx>)
    requires out <= all
    ensures all - (all - out) == out && |all - out| == |all| - |out|
  {
  }

  lemma ForgetSets(p: Pool, drop: set<Ctx>)
    requires drop <= EvictedCtxs(p)
    ensures var q := Forget(p, drop);
            LiveCtxs(q) == LiveCtxs(p) && EvictedCtxs(q) == EvictedCtxs(p) - drop
  {
  }

  lemma MayDropBounds(p: Pool, drop: set<Ctx>)
    requires MayDrop(p, drop)
    ensures drop <= EvictedCtxs(p)
    ensures p.cfg.maxEvicted > 0 ==> |EvictedCtxs(p) - drop| <= p.cfg.maxEvicted
  {
    hide EvictedCtxs;
    Removed(EvictedCtxs(p), if drop <= EvictedCtxs(p) then drop else {});
  }

  /** After a reap at most max_evicted mappings remain and no active slot was
      removed. */
  lemma ReapBoundsTheEvicted(p: Pool, now: Time, leased: set<Ctx>, drop: set<Ctx>)
    requires MayDrop(Sweep(p, now, leased), drop)
    ensures var p' := Reap(p, now, leased, drop);
            && (p.cfg.maxEvicted > 0 ==> |EvictedCtxs(p')| <= p.cfg.maxEvicted)
            && LiveCtxs(p') == LiveCtxs(p) - Swept(p, now, leased)
  {
    hide Sweep, Swept, Expired, LiveCtxs, EvictedCtxs, Forget, MayDrop;
    SweepSets(p, now, leased);
    MayDropBounds(Sweep(p, now, leased), drop);
    ForgetSets(Sweep(p, now, leased), drop);
  }

  /** What a reap takes out of the pool is exactly what it takes out of the
      shadow: the expired and the pushed out. No active slot goes unless this very
      reap evicted it. */
  lemma ReapForgetsExactlyTheRemoved(p: Pool, now: Time, leased: set<Ctx>, drop: set<Ctx>, c: Ctx)
    requires MayDrop(Sweep(p, now, leased), drop)
    ensures var p' := Reap(p, now, leased, drop);
            var gone := c in Expired(p, now) || c in drop;
            && (c in p'.entries <==> c in p.entries && !gone)
            && (c in p'.shadow <==> (c in p.shadow || c in Swept(p, now, leased)) && !gone)
            && (gone ==> c in p.entries && (!p.entries[c].active || c in Swept(p, now, leased)))
  {
    MayDropBounds(Sweep(p, now, leased), drop);
  }

  /** When an evicted context was evicted, if `now` is the time of the reap. */
  function EvictionTime(p: Pool, c: Ctx, now: Time): Time
    requires c in p.entries
  {
    if p.entries[c].active then now else p.entries[c].evictedAt
  }

  /** From the pool before a reap to the pool after it: of the evicted mappings that
      have not expired, those this reap evicts included, as many are kept as the
      bound allows, and whatever is pushed out was evicted no later than anything
      kept. */
  ghost predicate KeepsNewest(p: Pool, p': Pool, now: Time, leased: set<Ctx>) {
    var was := EvictedCtxs(p) + Swept(p, now, leased) - Expired(p, now);
    var kept := EvictedCtxs(p');
    && kept <= was
    && (p.cfg.maxEvicted <= 0 || |was| <= p.cfg.maxEvicted ==> kept == was)
    && (0 < p.cfg.maxEvicted < |was| ==> |kept| == p.cfg.maxEvicted)
    && forall d, k :: d in was - kept && k in kept ==> EvictionTime(p, d, now) <= EvictionTime(p, k, now)
  }

  lemma SweptTimes(p: Pool, now: Time, leased: set<Ctx>)
    ensures var q := Sweep(p, now, leased);
            && EvictedCtxs(q) == EvictedCtxs(p) + Swept(p, now, leased) - Expired(p, now)
            && forall c :: c in EvictedCtxs(q) ==> q.entries[c].evictedAt == EvictionTime(p, c, now)
  {
  }

  /** A reap keeps the newest evicted mappings, whichever ones it pushed out among
      equals. */
  lemma ReapKeepsTheNewest(p: Pool, now: Time, leased: set<Ctx>, drop: set<Ctx>)
    requires MayDrop(Sweep(p, now, leased), drop)
    ensures KeepsNewest(p, Reap(p, now, leased, drop), now, leased)
  {
    hide Sweep, Swept, Expired, EvictedCtxs, Forget, EvictionTime, LiveCtxs;
    var q := Sweep(p, now, leased);
    SweptTimes(p, now, leased);
    MayDropBounds(q, drop);
    ForgetSets(q, drop);
    Removed(EvictedCtxs(q), drop);
    SameBound(p, now, leased);
  }

  lemma SameBound(p: Pool, now: Time, leased: set<Ctx>)
    ensures Sweep(p, now, leased).cfg == p.cfg
  {
  }

  // ----- Retention across restarts -----

  /** What the shadow says is evicted is evicted, since the same time and last used at
      the same time, in the pool. */
  predicate ShadowDated(p: Pool) {
    forall c :: c in p.shadow && !p.shadow[c].active && p.shadow[c].sessionID != "" ==>
      && c in p.entries && !p.entries[c].active
      && p.entries[c].evictedAt == p.shadow[c].evictedAt && p.entries[c].lastUsed == p.shadow[c].lastUsed
  }

  /** And a record of a session that was not evicted says no time. */
  predicate ActiveUndated(p: Pool) {
    forall c :: c in p.shadow && p.shadow[c].active ==> p.shadow[c].evictedAt == 0
  }

  lemma CheckedShadow(p: Pool, c: Ctx, now: Time, v: Ctx)
    requires ShadowDated(p) && ActiveUndated(p)
    ensures ShadowDated(Checked(p, c, now, v)) && ActiveUndated(Checked(p, c, now, v))
  {
    hide AtCap;
  }

  lemma InstallShadow(p: Pool, c: Ctx, now: Time, made: Made)
    requires ShadowDated(p) && ActiveUndated(p) && c in p.entries && !made.Fails?
    requires made != Sync("") && ResumeID(p, c) == ShadowID(p, c)
    ensures ShadowDated(Install(p, c, now, made)) && ActiveUndated(Install(p, c, now, made))
  {
  }

  lemma HitShadow(p: Pool, c: Ctx, now: Time)
    requires ShadowDated(p) && ActiveUndated(p) && c in p.entries && p.entries[c].active
    ensures var q := p.(entries := p.entries[c := p.entries[c].(lastUsed := now)]); ShadowDated(q) && ActiveUndated(q)
  {
  }

  lemma LookupShadow(p: Pool, step: Step)
    requires ShadowDated(p) && ActiveUndated(p) && step.DoLookup? && NoAnonymous(step)
    requires forall d :: ResumeID(p, d) == ShadowID(p, d)
    ensures var q := LookedUp(p, step.c, step.now, step.healthy, step.victim, step.made).0;
            ShadowDated(q) && ActiveUndated(q)
  {
    hide AtCap, Checked, Install, ShadowDated, ActiveUndated, ResumeID, ShadowID;
    var c, now, v := step.c, step.now, step.victim;
    if Hits(p, c, step.healthy) {
      HitShadow(p, c, now);
    } else {
      CheckedShadow(p, c, now, v);
      CheckedIDs(p, c, now, v, c);
      if !step.made.Fails? { InstallShadow(Checked(p, c, now, v), c, now, step.made); }
    }
  }

  lemma OtherStepShadow(h: History, step: Step)
    requires ShadowDated(h.pool) && ActiveUndated(h.pool) && !step.DoLookup? && (step.DoCrash? ==> step.now > 0)
    ensures ShadowDated(Apply(h, step).pool) && ActiveUndated(Apply(h, step).pool)
  {
    hide MayDrop;
  }

  lemma {:induction false} EveryRunShadow(cfg: Config, steps: seq<Step>)
    requires forall step :: step in steps ==> NoAnonymous(step) && (step.DoCrash? ==> step.now > 0)
    ensures var p := Run(History(NewPool(cfg), map[]), steps).pool; ShadowDated(p) && ActiveUndated(p)
  {
    var h := History(NewPool(cfg), map[]);
    if steps != [] {
      hide Apply, ShadowDated, ActiveUndated;
      var prefix, last := steps[..|steps| - 1], steps[|steps| - 1];
      assert last in steps;
      EveryRunShadow(cfg, prefix);
      EveryRunAgrees(cfg, prefix);
      StepShadow(Run(h, prefix), last);
    }
  }

  lemma StepShadow(h: History, step: Step)
    requires ShadowDated(h.pool) && ActiveUndated(h.pool) && Agrees(h)
    requires NoAnonymous(step) && (step.DoCrash? ==> step.now > 0)
    ensures ShadowDated(Apply(h, step).pool) && ActiveUndated(Apply(h, step).pool)
  {
    if step.DoLookup? {
      forall d ensures ResumeID(h.pool, d) == ShadowID(h.pool, d) { }
      LookupShadow(h.pool, step);
      hide LookedUp;
    } else {
      OtherStepShadow(h, step);
      hide Apply;
    }
    hide ShadowDated, ActiveUndated;
  }

  /** A restart neither shortens nor prolongs the retention of a conversation whose
      eviction was on record: it expires when it would have. One that was not evicted,
      as far as the record went, has its whole time from the restart on. */
  lemma RestartKeepsRetention(cfg: Config, steps: seq<Step>, crash: Time, now: Time, c: Ctx)
    requires forall step :: step in steps ==> NoAnonymous(step) && (step.DoCrash? ==> step.now > 0)
    requires var p := Run(History(NewPool(cfg), map[]), steps).pool; c in p.shadow && p.shadow[c].sessionID != ""
    ensures var p := Run(History(NewPool(cfg), map[]), steps).pool;
            var q := Rehydrate(p, crash);
            && c in q.entries && !q.entries[c].active
            && (!p.shadow[c].active && p.shadow[c].evictedAt != 0 ==>
                  c in p.entries && (c in Expired(q, now) <==> c in Expired(p, now)))
            && (p.shadow[c].active ==> (c in Expired(q, now) <==> now - crash > cfg.evictedTTL))
  {
    EveryRunShadow(cfg, steps);
    EveryRunDates(cfg, steps);
    hide Run, Dated, LastUses;
  }

  /** Whenever a lookup or a reap closes a session other than the one looked up, the
      shadow has the eviction on record, with its time and the last use. */
  lemma EvictionIsOnRecord(h: History, step: Step, u: Ctx)
    requires Possible(h.pool, step) && u in LiveCtxs(h.pool) && u !in LiveCtxs(Apply(h, step).pool)
    requires (step.DoLookup? && step.c != u) || (step.DoReap? && u in Apply(h, step).pool.entries)
    ensures var e, p := h.pool.entries[u], Apply(h, step).pool;
            && u in p.entries && !p.entries[u].active && p.entries[u].evictedAt == step.now
            && u in p.shadow && p.shadow[u] == Rec(e.sessionID, false, e.lastUsed, step.now)
  {
    if step.DoLookup? {
      var c, now, v := step.c, step.now, step.victim;
      if !Hits(h.pool, c, step.healthy) {
        var q := Checked(h.pool, c, now, v);
        CheckedRecords(h.pool, c, now, v, u);
        if !step.made.Fails? { InstallLeaves(q, c, now, step.made, u); }
        hide Checked, Install, AtCap;
      }
    } else {
      hide MayDrop;
    }
  }

  lemma CheckedRecords(p: Pool, c: Ctx, now: Time, v: Ctx, u: Ctx)
    requires u in LiveCtxs(p) && u != c
    ensures var q := Checked(p, c, now, v);
            && u in q.entries
            && (if u in LiveCtxs(q) then q.entries[u] == p.entries[u]
                else q.entries[u] == p.entries[u].Evict(now) && u in q.shadow
                     && q.shadow[u] == Rec(p.entries[u].sessionID, false, p.entries[u].lastUsed, now))
  {
    hide AtCap;
  }

  lemma InstallLeaves(p: Pool, c: Ctx, now: Time, made: Made, u: Ctx)
    requires c in p.entries && !made.Fails? && u != c && u in p.entries
    ensures var q := Install(p, c, now, made);
            && u in q.entries && q.entries[u] == p.entries[u]
            && (u in p.shadow ==> u in q.shadow && q.shadow[u] == p.shadow[u])
  {
  }

  /** A session that reports the id the slot already has writes nothing. */
  lemma SameIDWritesNothing(h: History, c: Ctx, owner: nat, id: string)
    requires c in h.pool.entries && h.pool.entries[c].sessionID == id
    ensures Apply(h, DoIDKnown(c, owner, id)) == h
  {
  }

  // ----- A slot that never got a session -----

  /** A slot without a session, as a lookup makes it. */
  predicate Unfilled(p: Pool, c: Ctx) {
    c in p.entries && p.entries[c].active && p.entries[c].session == None && p.entries[c].sessionID == ""
  }

  lemma CheckedUnfilled(p: Pool, c: Ctx, now: Time, v: Ctx, d: Ctx)
    ensures Unfilled(p, d) || (d == c && c !in p.entries) ==> Unfilled(Checked(p, c, now, v), d)
  {
    hide AtCap;
  }

  lemma StepKeepsUnfilled(h: History, step: Step, d: Ctx)
    requires Unfilled(h.pool, d) && !step.DoCrash? && !(step.DoLookup? && step.c == d && !step.made.Fails?)
    ensures Unfilled(Apply(h, step).pool, d)
  {
    if step.DoLookup? {
      CheckedUnfilled(h.pool, step.c, step.now, step.victim, d);
      hide Checked, AtCap;
    } else {
      hide MayDrop;
    }
  }

  /** A lookup of a new context that is rejected, or for which no session could be made,
      leaves a slot behind that no reap ever removes: it stays until a lookup of that
      context succeeds or the process ends. */
  lemma {:induction false} FailedLookupLeavesASlot(h: History, lookup: Step, steps: seq<Step>)
    requires lookup.DoLookup? && Possible(h.pool, lookup) && lookup.c !in h.pool.entries
    requires LookedUp(h.pool, lookup.c, lookup.now, lookup.healthy, lookup.victim, lookup.made).1
             in {Rejected, FactoryFailed}
    requires forall step :: step in steps ==>
               !step.DoCrash? && !(step.DoLookup? && step.c == lookup.c && !step.made.Fails?)
    ensures Unfilled(Run(Apply(h, lookup), steps).pool, lookup.c)
  {
    if steps == [] {
      CheckedUnfilled(h.pool, lookup.c, lookup.now, lookup.victim, lookup.c);
      hide Checked, AtCap;
    } else {
      hide Apply, Possible, LookedUp, Unfilled;
      var prefix, last := steps[..|steps| - 1], steps[|steps| - 1];
      assert last in steps;
      FailedLookupLeavesASlot(h, lookup, prefix);
      StepKeepsUnfilled(Run(Apply(h, lookup), prefix), last, lookup.c);
    }
  }

  // ----- A reap whose last part comes late -----

  /** The tail of reapOnce on the list its scan made: it removes the listed slots
      that are still evicted, and forgets every listed context. */
  function DeleteListed(p: Pool, listed: set<Ctx>): Pool {
    p.(entries := map c | c in p.entries && !(c in listed && !p.entries[c].active) :: p.entries[c],
       shadow := p.shadow - listed)
  }

  /** If lookups may run between scan and tail, the tail keeps the shadow in step
      with the pool exactly when no listed conversation is live again. */
  lemma LateTailAgreesIff(p: Pool, listed: set<Ctx>)
    requires forall c :: ResumeID(p, c) == ShadowID(p, c)
    ensures (forall c :: ResumeID(DeleteListed(p, listed), c) == ShadowID(DeleteListed(p, listed), c)) <==>
            (forall c :: c in listed && c in p.entries && p.entries[c].active ==> p.entries[c].sessionID == "")
  {
    var q := DeleteListed(p, listed);
    assert forall c :: c in listed ==> ShadowID(q, c) == "";
    assert forall c :: c !in listed ==> ResumeID(q, c) == ResumeID(p, c) && ShadowID(q, c) == ShadowID(p, c);
    assert forall c :: c in listed && c in p.entries && p.entries[c].active ==>
           ResumeID(q, c) == p.entries[c].sessionID;
  }

  /** A run in which it does not: an evicted conversation expires and is listed, a
      lookup resumes it, and the tail of the reap forgets its record. The session
      is live, and a restart could not resume it. */
  lemma LateTailForgetsALiveConversation(cfg: Config, c: Ctx, id: string)
    requires id != "" && cfg.maxActive == 0
    ensures var idle := if cfg.idleTTL < 0 then 0 else cfg.idleTTL;
            var past := idle + 2 + if cfg.evictedTTL < 0 then 0 else cfg.evictedTTL;
            var evicted := Sweep(LookedUp(NewPool(cfg), c, 0, true, "", Sync(id)).0, idle + 1, {c});
            var listed := Expired(evicted, past);
            var resumed := LookedUp(evicted, c, past, true, "", Sync(id));
            var p := DeleteListed(resumed.0, listed);
            && listed == {c} && resumed.1 == Installed(id)
            && c in LiveCtxs(p) && ResumeID(p, c) == id && ResumeID(Rehydrate(p, past), c) == ""
  {
    var idle := if cfg.idleTTL < 0 then 0 else cfg.idleTTL;
    var past := idle + 2 + if cfg.evictedTTL < 0 then 0 else cfg.evictedTTL;
    var live := LookedUp(NewPool(cfg), c, 0, true, "", Sync(id)).0;
    assert live.entries == map[c := Entry(id, 0, true, Some(0), 0, 0)] && live.shadow == map[c := Rec(id, true, 0, 0)];
    var evicted := Sweep(live, idle + 1, {c});
    assert Swept(live, idle + 1, {c}) == {c} && Expired(live, idle + 1) == {};
    assert evicted.entries == map[c := Entry(id, 0, false, None, 0, idle + 1)];
    assert Expired(evicted, past) == {c};
    var resumed := LookedUp(evicted, c, past, true, "", Sync(id));
    assert resumed.0.entries == map[c := Entry(id, 0, true, Some(1), past, idle + 1)];
    hide LookedUp, Sweep;
  }

  // ----- The pool itself -----

  function EvictAll(p: Pool, cs: set<Ctx>, now: Time): Pool {
    p.(entries := map c | c in p.entries :: if c in cs then p.entries[c].Evict(now) else p.entries[c])
  }

  function EvictedRecs(p: Pool, cs: set<Ctx>, now: Time): map<Ctx, Rec> {
    map c | c in cs && c in p.entries :: Rec(p.entries[c].sessionID, false, p.entries[c].lastUsed, now)
  }

  lemma NoneYet(p: Pool, now: Time)
    ensures EvictAll(p, {}, now) == p && EvictedRecs(p, {}, now) == map[]
  {
    assert EvictAll(p, {}, now).entries == p.entries;
  }

  lemma EvictOneMore(p: Pool, cs: set<Ctx>, c: Ctx, now: Time)
    requires c in p.entries && c !in cs
    ensures EvictAll(p, cs, now).entries.Keys == p.entries.Keys && EvictAll(p, cs, now).entries[c] == p.entries[c]
    ensures EvictAll(p, cs + {c}, now).entries == EvictAll(p, cs, now).entries[c := p.entries[c].Evict(now)]
    ensures EvictedRecs(p, cs + {c}, now) ==
            EvictedRecs(p, cs, now)[c := Rec(p.entries[c].sessionID, false, p.entries[c].lastUsed, now)]
  {
  }

  lemma MergeOneMore(m: map<Ctx, Rec>, part: map<Ctx, Rec>, c: Ctx, rec: Rec)
    ensures m + part[c := rec] == (m + part)[c := rec]
  {
  }

  lemma MergeNone(m: map<Ctx, Rec>)
    ensures m + map[] == m
  {
  }

  lemma DeleteOne(p: Pool, c: Ctx)
    ensures DeleteListed(p, {c}) ==
            p.(entries := if c in p.entries && !p.entries[c].active then p.entries - {c} else p.entries,
               shadow := p.shadow - {c})
  {
    assert DeleteListed(p, {c}).entries == if c in p.entries && !p.entries[c].active then p.entries - {c}
           else p.entries;
  }

  lemma DeleteOneMore(p: Pool, cs: set<Ctx>, c: Ctx)
    ensures DeleteListed(DeleteListed(p, cs), {c}) == DeleteListed(p, cs + {c})
  {
    var q, r := DeleteListed(DeleteListed(p, cs), {c}), DeleteListed(p, cs + {c});
    assert q.entries == r.entries && q.shadow == r.shadow;
  }

  lemma RehydrateOneMore(p: Pool, c: Ctx, rec: Rec, now: Time)
    requires c !in p.shadow
    ensures var q, r := Rehydrate(p, now), Rehydrate(p.(shadow := p.shadow[c := rec]), now);
            var at := if rec.evictedAt == 0 then now else rec.evictedAt;
            r.entries == if rec.sessionID == "" then q.entries
                         else q.entries[c := Entry(rec.sessionID, p.nextGen, false, None, rec.lastUsed, at)]
  {
  }

  lemma RehydrateShadowOneMore(p: Pool, c: Ctx, rec: Rec, now: Time)
    requires c !in p.shadow
    ensures var q, r := Rehydrate(p, now), Rehydrate(p.(shadow := p.shadow[c := rec]), now);
            var at := if rec.evictedAt == 0 then now else rec.evictedAt;
            r.shadow == if rec.sessionID == "" then q.shadow
                        else q.shadow[c := Rec(rec.sessionID, false, rec.lastUsed, at)]
  {
  }

  /** The three passes of a sweep come to the sweep. */
  lemma SweepInSteps(p: Pool, now: Time, leased: set<Ctx>)
    ensures var swept := Swept(p, now, leased);
            var persisted := EvictAll(p, swept, now).(shadow := p.shadow + EvictedRecs(p, swept, now));
            DeleteListed(persisted, Expired(p, now)) == Sweep(p, now, leased)
  {
    var swept := Swept(p, now, leased);
    var q := DeleteListed(EvictAll(p, swept, now).(shadow := p.shadow + EvictedRecs(p, swept, now)), Expired(p, now));
    var r := Sweep(p, now, leased);
    assert q.entries.Keys == r.entries.Keys;
    assert q.entries == r.entries;
    assert q.shadow == r.shadow;
  }

  predicate OldestFirst(entries: map<Ctx, Entry>, s: seq<Ctx>)
    requires forall c :: c in s ==> c in entries
  {
    forall i, j :: 0 <= i < j < |s| ==> entries[s[i]].evictedAt <= entries[s[j]].evictedAt
  }

  /** The place for c in a sorted list: behind everything not evicted later. */
  method InsertionPoint(entries: map<Ctx, Entry>, s: seq<Ctx>, c: Ctx) returns (k: nat)
    requires c in entries && (forall d :: d in s ==> d in entries) && OldestFirst(entries, s)
    ensures k <= |s|
    ensures forall i :: 0 <= i < k ==> entries[s[i]].evictedAt <= entries[c].evictedAt
    ensures forall i :: k <= i < |s| ==> entries[c].evictedAt < entries[s[i]].evictedAt
  {
    k := |s|;
    while k > 0 && entries[c].evictedAt < entries[s[k - 1]].evictedAt
      invariant k <= |s|
      invariant forall i :: k <= i < |s| ==> entries[c].evictedAt < entries[s[i]].evictedAt
    {
      k := k - 1;
    }
  }

  function Inserted(s: seq<Ctx>, c: Ctx, k: nat): seq<Ctx>
    requires k <= |s|
  {
    s[..k] + [c] + s[k..]
  }

  lemma InsertedMembers(s: seq<Ctx>, c: Ctx, k: nat, d: Ctx)
    requires k <= |s|
    ensures d in Inserted(s, c, k) <==> d in s || d == c
  {
    assert s == s[..k] + s[k..];
  }

  lemma InsertedDistinct(s: seq<Ctx>, c: Ctx, k: nat)
    requires k <= |s| && Distinct(s) && c !in s
    ensures Distinct(Inserted(s, c, k))
  {
    assert forall i :: 0 <= i < |s| ==> s[i] in s;
  }

  lemma InsertedOldestFirst(entries: map<Ctx, Entry>, s: seq<Ctx>, c: Ctx, k: nat)
    requires c in entries && (forall d :: d in s ==> d in entries) && OldestFirst(entries, s) && k <= |s|
    requires forall i :: 0 <= i < k ==> entries[s[i]].evictedAt <= entries[c].evictedAt
    requires forall i :: k <= i < |s| ==> entries[c].evictedAt < entries[s[i]].evictedAt
    ensures (forall d :: d in Inserted(s, c, k) ==> d in entries) && OldestFirst(entries, Inserted(s, c, k))
  {
    forall d ensures d in Inserted(s, c, k) ==> d in entries { InsertedMembers(s, c, k, d); }
  }

  method SortOldestFirst(entries: map<Ctx, Entry>, cands: seq<Ctx>) returns (sorted: seq<Ctx>)
    requires Distinct(cands) && forall c :: c in cands ==> c in entries
    ensures |sorted| == |cands| && Distinct(sorted)
    ensures forall c :: c in sorted <==> c in cands
    ensures OldestFirst(entries, sorted)
  {
    sorted := [];
    for i := 0 to |cands|
      invariant |sorted| == i && Distinct(sorted)
      invariant forall c :: c in sorted <==> c in cands[..i]
      invariant OldestFirst(entries, sorted)
    {
      var k := InsertionPoint(entries, sorted, cands[i]);
      assert cands[i] !in cands[..i];
      forall d ensures d in Inserted(sorted, cands[i], k) <==> d in cands[..i + 1] {
        InsertedMembers(sorted, cands[i], k, d);
      }
      InsertedDistinct(sorted, cands[i], k);
      InsertedOldestFirst(entries, sorted, cands[i], k);
      sorted := Inserted(sorted, cands[i], k);
    }
  }

  lemma {:induction false} DistinctSize(s: seq<Ctx>)
    requires Distinct(s)
    ensures |set c | c in s| == |s|
  {
    if s != [] {
      DistinctSize(s[1..]);
      assert (set c | c in s) == {s[0]} + (set c | c in s[1..]);
    }
  }

  class SessionPool {
    const cfg: Config
    var entries: map<Ctx, Entry>
    var shadow: map<Ctx, Rec>
    var nextGen: nat
    var nextSession: nat

    ghost function View(): Pool
      reads this
    {
      Pool(cfg, entries, shadow, nextGen, nextSession)
    }

    /** Loads what an earlier process left in the shadow file. */
    constructor (cfg: Config, records: map<Ctx, Rec>, gen: nat, sess: nat, now: Time)
      ensures View() == Rehydrate(Pool(cfg, map[], records, gen, sess), now)
    {
      this.cfg := cfg;
      var es, sh := Rehydrated(cfg, records, gen, sess, now);
      entries, shadow, nextGen, nextSession := es, sh, gen + 1, sess;
    }

    static method Rehydrated(cfg: Config, records: map<Ctx, Rec>, gen: nat, ghost sess: nat, now: Time)
      returns (es: map<Ctx, Entry>, sh: map<Ctx, Rec>)
      ensures var p := Rehydrate(Pool(cfg, map[], records, gen, sess), now); es == p.entries && sh == p.shadow
    {
      ghost var part: map<Ctx, Rec> := map[];
      var left := records.Keys;
      es, sh := map[], map[];
      while left != {}
        invariant part.Keys == records.Keys - left && left <= records.Keys
        invariant forall c :: c in part ==> part[c] == records[c]
        invariant es == Rehydrate(Pool(cfg, map[], part, gen, sess), now).entries
        invariant sh == Rehydrate(Pool(cfg, map[], part, gen, sess), now).shadow
        decreases |left|
      {
        var c :| c in left;
        var rec := records[c];
        RehydrateOneMore(Pool(cfg, map[], part, gen, sess), c, rec, now);
        RehydrateShadowOneMore(Pool(cfg, map[], part, gen, sess), c, rec, now);
        left, part := left - {c}, part[c := rec];
        if rec.sessionID != "" {
          var evictedAt := if rec.evictedAt == 0 then now else rec.evictedAt;
          es := es[c := Entry(rec.sessionID, gen, false, None, rec.lastUsed, evictedAt)];
          sh := sh[c := Rec(rec.sessionID, false, rec.lastUsed, evictedAt)];
        }
      }
      assert part == records;
    }

    /** The scan of the other slots, in any order: how many are live, and a least
        recently used one among them. */
    method CountActive(c: Ctx) returns (active: nat, lru: Option<Ctx>)
      ensures active == |LiveCtxs(View()) - {c}|
      ensures if active == 0 then lru == None else lru.Some? && IsLRU(View(), c, lru.value)
    {
      ghost var seen: set<Ctx> := {};
      var left := entries.Keys - {c};
      active, lru := 0, None;
      while left != {}
        invariant forall u :: u in left ==> u in entries && u != c
        invariant forall u :: u in seen <==> u in LiveCtxs(View()) && u != c && u !in left
        invariant active == |seen|
        invariant lru.Some? <==> seen != {}
        invariant lru.Some? ==> lru.value in seen
        invariant forall u :: u in seen ==> entries[lru.value].lastUsed <= entries[u].lastUsed
        decreases |left|
      {
        var u :| u in left;
        left := left - {u};
        if entries[u].Live() {
          active, seen := active + 1, seen + {u};
          if lru == None || entries[u].lastUsed < entries[lru.value].lastUsed { lru := Some(u); }
        }
      }
      assert seen == LiveCtxs(View()) - {c};
    }

    method EnforceCap(c: Ctx, now: Time) returns (ok: bool, victim: Ctx)
      modifies this
      ensures AtCap(old(View()), c) ==> IsLRU(old(View()), c, victim)
      ensures ok == !(AtCap(old(View()), c) && cfg.policy.Reject?)
      ensures View() == if AtCap(old(View()), c) && cfg.policy.EvictLRU? then EvictForCap(old(View()), victim, now)
              else old(View())
    {
      victim := c;
      if cfg.maxActive <= 0 { return true, c; }
      var active, lru := CountActive(c);
      if active < cfg.maxActive { return true, c; }
      victim := lru.value;
      ok := cfg.policy.EvictLRU?;
      if ok {
        var e := entries[victim];
        entries, shadow := entries[victim := e.Evict(now)], shadow[victim := Rec(e.sessionID, false, e.lastUsed, now)];
      }
    }

    /** `made` is what the factory would answer. */
    method LookupOrCreate(c: Ctx, now: Time, healthy: bool, made: Made) returns (r: Lookup, victim: Ctx)
      modifies this
      ensures (View(), r) == LookedUp(old(View()), c, now, healthy, victim, made)
      ensures Possible(old(View()), DoLookup(c, now, healthy, victim, made))
    {
      victim := c;
      if c !in entries {
        entries, nextGen := entries[c := Entry("", nextGen, true, None, 0, 0)], nextGen + 1;
      }
      if entries[c].Live() {
        if healthy {
          entries := entries[c := entries[c].(lastUsed := now)];
          return Hit, c;
        }
        entries := entries[c := entries[c].Evict(now)];
      }
      assert View() == Missed(old(View()), c, now);
      var ok;
      ok, victim := EnforceCap(c, now);
      assert View() == Checked(old(View()), c, now, victim);
      if !ok { return Rejected, victim; }
      if made.Fails? { return FactoryFailed, victim; }
      r := Installed(entries[c].sessionID);
      Open(c, now, made);
    }

    method Open(c: Ctx, now: Time, made: Made)
      requires c in entries && !made.Fails?
      modifies this
      ensures View() == Install(old(View()), c, now, made)
    {
      var e := entries[c].(session := Some(nextSession), active := true, lastUsed := now);
      nextSession := nextSession + 1;
      if made.Sync? { e := e.(sessionID := made.id); }
      entries := entries[c := e];
      if e.sessionID != "" { shadow := shadow[c := Rec(e.sessionID, true, now, 0)]; }
    }

    method HandleSessionIDKnown(c: Ctx, owner: nat, id: string)
      modifies this
      ensures View() == IDKnown(old(View()), c, owner, id)
    {
      if id == "" || c !in entries { return; }
      var e := entries[c];
      if e.session != Some(owner) || e.sessionID == id { return; }
      entries := entries[c := e.(sessionID := id)];
      shadow := shadow[c := Rec(id, true, e.lastUsed, 0)];
    }

    method MarkTurnFinished(c: Ctx, owner: nat, now: Time)
      modifies this
      ensures View() == TurnFinished(old(View()), c, owner, now)
    {
      if c in entries && entries[c].active && entries[c].session == Some(owner) {
        entries := entries[c := entries[c].(lastUsed := now)];
      }
    }

    /** One pass over the slots, in any order: evicts the idle ones whose gate gave
        its lease and lists the evicted ones that have expired. */
    method ScanIdle(now: Time, leased: set<Ctx>) returns (evicted: map<Ctx, Rec>, toDelete: set<Ctx>)
      modifies this`entries
      ensures evicted == EvictedRecs(old(View()), Swept(old(View()), now, leased), now)
      ensures toDelete == Expired(old(View()), now)
      ensures View() == EvictAll(old(View()), Swept(old(View()), now, leased), now)
    {
      ghost var p, swept, expired := View(), Swept(View(), now, leased), Expired(View(), now);
      ghost var done: set<Ctx> := {};
      var left := entries.Keys;
      evicted, toDelete := map[], {};
      NoneYet(p, now);
      while left != {}
        invariant forall c :: c in left ==> c in p.entries
        invariant forall c :: c in done <==> c in swept && c !in left
        invariant forall c :: c in toDelete <==> c in expired && c !in left
        invariant View() == EvictAll(p, done, now) && evicted == EvictedRecs(p, done, now)
        decreases |left|
      {
        var c :| c in left;
        EvictOneMore(p, done, c, now);
        left := left - {c};
        var e := entries[c];
        if e.active {
          if e.session.Some? && now - e.lastUsed > cfg.idleTTL && c in leased {
            entries := entries[c := e.Evict(now)];
            evicted := evicted[c := Rec(e.sessionID, false, e.lastUsed, now)];
            done := done + {c};
          }
        } else if now - e.evictedAt > cfg.evictedTTL {
          toDelete := toDelete + {c};
        }
      }
      assert done == swept && toDelete == expired;
    }

    method PersistEvicted(recs: map<Ctx, Rec>)
      modifies this`shadow
      ensures View() == old(View()).(shadow := old(shadow) + recs)
    {
      ghost var was, part: map<Ctx, Rec> := shadow, map[];
      var left := recs.Keys;
      MergeNone(was);
      while left != {}
        invariant forall c :: c in left ==> c in recs
        invariant forall c :: c in part <==> c in recs && c !in left
        invariant forall c :: c in part ==> part[c] == recs[c]
        invariant shadow == was + part
        decreases |left|
      {
        var c :| c in left;
        MergeOneMore(was, part, c, recs[c]);
        left, part := left - {c}, part[c := recs[c]];
        shadow := shadow[c := recs[c]];
      }
      assert part == recs;
    }

    method DeleteExpired(toDelete: set<Ctx>)
      modifies this`entries, this`shadow
      ensures View() == DeleteListed(old(View()), toDelete)
    {
      ghost var p, done: set<Ctx> := View(), {};
      var left := toDelete;
      assert View() == DeleteListed(p, {});
      while left != {}
        invariant done + left == toDelete
        invariant View() == DeleteListed(p, done)
        decreases |left|
      {
        var c :| c in left;
        DeleteOneMore(p, done, c);
        DeleteOne(View(), c);
        left, done := left - {c}, done + {c};
        if c in entries && !entries[c].active { entries := entries - {c}; }
        shadow := shadow - {c};
      }
    }

    /** The evicted slots, in the order some walk meets them. */
    method Candidates() returns (cands: seq<Ctx>)
      ensures Distinct(cands) && forall c :: c in cands <==> c in EvictedCtxs(View())
    {
      cands := [];
      var left := entries.Keys;
      while left != {}
        invariant left <= entries.Keys
        invariant Distinct(cands)
        invariant forall c :: c in cands <==> c in EvictedCtxs(View()) && c !in left
        decreases |left|
      {
        var c :| c in left;
        left := left - {c};
        if !entries[c].active { cands := cands + [c]; }
      }
    }

    method EnforceMaxEvicted() returns (drop: set<Ctx>)
      modifies this`entries, this`shadow
      ensures MayDrop(old(View()), drop) && View() == Forget(old(View()), drop)
    {
      drop := {};
      var cands := Candidates();
      DistinctSize(cands);
      assert (set c | c in cands) == EvictedCtxs(View());
      if cfg.maxEvicted > 0 && |cands| > cfg.maxEvicted {
        var sorted := SortOldestFirst(entries, cands);
        var n := |cands| - cfg.maxEvicted;
        drop := set c | c in sorted[..n];
        DistinctSize(sorted[..n]);
        OldestArePrefix(entries, sorted, n);
      }
      entries, shadow := entries - drop, shadow - drop;
    }

    /** `leased` are the contexts whose gate would give its eviction lease. */
    method ReapOnce(now: Time, leased: set<Ctx>) returns (drop: set<Ctx>)
      modifies this`entries, this`shadow
      ensures MayDrop(Sweep(old(View()), now, leased), drop)
      ensures View() == Reap(old(View()), now, leased, drop)
      ensures KeepsNewest(old(View()), View(), now, leased)
    {
      var evicted, toDelete := ScanIdle(now, leased);
      PersistEvicted(evicted);
      DeleteExpired(toDelete);
      SweepInSteps(old(View()), now, leased);
      drop := EnforceMaxEvicted();
      ReapKeepsTheNewest(old(View()), now, leased, drop);
    }
  }

  lemma OldestArePrefix(entries: map<Ctx, Entry>, s: seq<Ctx>, n: nat)
    requires (forall c :: c in s ==> c in entries) && OldestFirst(entries, s) && n <= |s|
    ensures forall d, k :: d in s[..n] && k in s && k !in s[..n] ==> entries[d].evictedAt <= entries[k].evictedAt
  {
    forall d, k | d in s[..n] && k in s && k !in s[..n] ensures entries[d].evictedAt <= entries[k].evictedAt {
      var i :| 0 <= i < n && s[i] == d;
      var j :| 0 <= j < |s| && s[j] == k;
      assert s[j] in s[..n] || j >= n;
    }
  }
}
