/** Any number of sessions streaming turns over one lifecycle store, one change at
    a time, with the process lost and restarted at any point. */
module LifecycleRuns {
  import opened LifecycleStores
  import opened Options
  import opened L = Lifecycles

  /** `runs` holds what each turn in progress has yet to do; `log` what the turns
      of a session have done since the beginning, and `hist` every event appended
      for it, through all restarts. */
  datatype State = State(
    mem: Store,
    disk: Store,
    runs: map<Ctx, seq<Effect>>,
    log: map<Ctx, seq<Effect>>,
    hist: map<Ctx, seq<Event>>)

  datatype Step = Begin(c: Ctx, o: Oracle) | Advance(c: Ctx) | Restart

  function LogOf(s: State, c: Ctx): seq<Effect> {
    if c in s.log then s.log[c] else []
  }

  function HistOf(s: State, c: Ctx): seq<Event> {
    if c in s.hist then s.hist[c] else []
  }

  function Boot(file: Store): State {
    State(file.Reloaded(), file, map[], map[], map c | c in file.sessions :: file.sessions[c].events)
  }

  predicate Saves(e: Effect) {
    !e.Forward? && !e.Done?
  }

  function Did(cfg: Config, s: State, c: Ctx, e: Effect): State {
    var mem := Perform(s.mem, c, cfg.version, e);
    s.(mem := mem,
       disk := if Saves(e) then mem else s.disk,
       log := s.log[c := LogOf(s, c) + [e]],
       hist := if e.Emit? then s.hist[c := HistOf(s, c) + [Event(s.mem.seqno + 1, e.turn, e.note)]] else s.hist)
  }

  /** One turn at a time per session; a turn that is done lets the next one in. */
  function Apply(cfg: Config, s: State, step: Step): State {
    match step
    case Begin(c, o) =>
      if c in s.runs then s
      else s.(runs := s.runs[c := Turn(cfg, s.mem.NeedsInit(c, cfg.version), o)],
              mem := if cfg.initialize then s.mem.Put(c, s.mem.Get(c)) else s.mem)
    case Advance(c) =>
      if c !in s.runs then s
      else if s.runs[c] == [] then s.(runs := s.runs - {c})
      else Did(cfg, s, c, s.runs[c][0]).(runs := s.runs[c := s.runs[c][1..]])
    case Restart => s.(mem := s.disk.Reloaded(), runs := map[])
  }

  function Run(cfg: Config, s: State, steps: seq<Step>): State {
    if steps == [] then s else Apply(cfg, Run(cfg, s, steps[..|steps| - 1]), steps[|steps| - 1])
  }

  // ----- Memory and file -----

  /** A restart now would lose nothing but the phases in flight. */
  ghost predicate Saved(s: State) {
    && s.mem.seqno == s.disk.seqno
    && forall c :: Settled(s.disk.Get(c)) == Settled(s.mem.Get(c))
  }

  lemma ReloadedGet(st: Store, c: Ctx)
    ensures st.Reloaded().Get(c) == Settled(st.Get(c))
  {
  }

  lemma SettledTwice(rec: Record)
    ensures Settled(Settled(rec)) == Settled(rec)
  {
  }

  lemma PutGet(st: Store, c: Ctx, rec: Record, d: Ctx)
    ensures st.Put(c, rec).Get(d) == if d == c then rec else st.Get(d)
  {
  }

  lemma BootSaved(file: Store)
    ensures Saved(Boot(file))
  {
    forall c ensures Settled(file.Get(c)) == Settled(file.Reloaded().Get(c)) {
      ReloadedGet(file, c);
      SettledTwice(file.Get(c));
    }
  }

  lemma StepKeepsSaved(cfg: Config, s: State, step: Step)
    requires Saved(s)
    ensures Saved(Apply(cfg, s, step))
  {
    hide Turn, Settled;
    if step.Restart? {
      BootSaved(s.disk);
    } else if step.Begin? {
      forall d ensures Settled(s.disk.Get(d)) == Settled(Apply(cfg, s, step).mem.Get(d)) {
        PutGet(s.mem, step.c, s.mem.Get(step.c), d);
      }
    }
  }

  // ----- Initialization happens once -----

  predicate StartsInit(e: Effect) {
    e.Emit? && e.note == SessionInitializing
  }

  predicate Marks(e: Effect) {
    e.MarkInitialized? || e.MarkDegraded?
  }

  predicate NoInit(es: seq<Effect>) {
    forall e :: e in es ==> !StartsInit(e)
  }

  predicate NoMark(es: seq<Effect>) {
    forall e :: e in es ==> !Marks(e)
  }

  /** No initialization begins after one has succeeded or been given up on. */
  predicate OnceMarked(es: seq<Effect>) {
    forall i, j :: 0 <= i < j < |es| && Marks(es[i]) ==> !StartsInit(es[j])
  }

  predicate Plain(es: seq<Effect>) {
    NoInit(es) && NoMark(es)
  }

  lemma PlainConcat(a: seq<Effect>, b: seq<Effect>)
    requires Plain(a) && Plain(b)
    ensures Plain(a + b)
  {
  }

  lemma GracePlain(turn: string, trigger: Trigger, kind: Kind, t: SubTurn)
    ensures Plain(Grace(turn, trigger, kind, t))
  {
    if t.provider.Streams? {
      var events := t.provider.events;
      ForwardsOnly(events);
      assert Plain(SettleGrace(turn, trigger, kind, t, events));
      PlainConcat(Forwards(events), SettleGrace(turn, trigger, kind, t, events));
    }
    hide SettleGrace;
  }

  lemma SettlePlain(cfg: Config, o: Oracle, events: seq<ProviderEvent>)
    ensures Plain(Settle(cfg, o, events))
  {
    GracePlain(o.turn, SoftDeadline, RuntimeTimeout, o.grace);
    GracePlain(o.turn, GracefulStop, Canceled, o.grace);
    hide Grace;
  }

  lemma BusinessPlain(cfg: Config, o: Oracle)
    ensures Plain(Business(cfg, o))
  {
    if o.work.provider.Streams? {
      ForwardsOnly(o.work.provider.events);
      SettlePlain(cfg, o, o.work.provider.events);
    }
    hide Settle;
  }

  lemma InitializeOrder(cfg: Config, o: Oracle)
    ensures OnceMarked(Initialize(cfg, o))
  {
    var es := Initialize(cfg, o);
    assert es[1] == Emit(o.initTurn, SessionInitializing);
    assert forall j :: 2 <= j < |es| ==> !StartsInit(es[j]);
    assert !Marks(es[0]);
  }

  lemma TurnOrder(cfg: Config, needsInit: bool, o: Oracle)
    ensures OnceMarked(Turn(cfg, needsInit, o))
    ensures !needsInit ==> NoInit(Turn(cfg, needsInit, o))
  {
    BusinessPlain(cfg, o);
    InitializeOrder(cfg, o);
    hide Business, Initialize;
    var a := if cfg.initialize && needsInit then Initialize(cfg, o) else [];
    var b := if Proceeds(cfg, needsInit, o) then Business(cfg, o) else [];
    forall i, j | 0 <= i < j < |a + b| && Marks((a + b)[i]) ensures !StartsInit((a + b)[j]) {
      if j >= |a| { assert (a + b)[j] == b[j - |a|] && b[j - |a|] in b; }
    }
  }

  ghost predicate InitOnce(cfg: Config, s: State, c: Ctx) {
    && OnceMarked(LogOf(s, c))
    && (!NoMark(LogOf(s, c)) ==> !s.mem.NeedsInit(c, cfg.version))
    && (c in s.runs ==> OnceMarked(s.runs[c]))
    && (c in s.runs && !s.mem.NeedsInit(c, cfg.version) ==> NoInit(s.runs[c]))
  }

  lemma PerformInit(st: Store, c: Ctx, version: string, e: Effect, d: Ctx)
    ensures var st' := Perform(st, c, version, e);
            st'.NeedsInit(d, version) == (st.NeedsInit(d, version) && !(d == c && Marks(e)))
  {
  }

  lemma SnocOrder(es: seq<Effect>, e: Effect)
    requires OnceMarked(es) && (NoMark(es) || !StartsInit(e))
    ensures OnceMarked(es + [e])
    ensures !NoMark(es + [e]) ==> !NoMark(es) || Marks(e)
  {
    forall i, j | 0 <= i < j < |es + [e]| && Marks((es + [e])[i]) ensures !StartsInit((es + [e])[j]) {
      assert (es + [e])[i] == es[i] && es[i] in es;
    }
  }

  lemma TailOrder(es: seq<Effect>)
    requires es != [] && OnceMarked(es)
    ensures OnceMarked(es[1..]) && (Marks(es[0]) || NoInit(es) ==> NoInit(es[1..]))
    ensures NoInit(es) ==> !StartsInit(es[0])
  {
    if Marks(es[0]) {
      forall e | e in es[1..] ensures !StartsInit(e) {
        var j :| 0 <= j < |es[1..]| && es[1..][j] == e;
        assert es[j + 1] == e;
      }
    }
    forall i, j | 0 <= i < j < |es[1..]| && Marks(es[1..][i]) ensures !StartsInit(es[1..][j]) {
      assert Marks(es[i + 1]) && es[j + 1] == es[1..][j];
    }
    assert es[0] in es;
  }

  lemma AdvanceKeepsInitOnce(cfg: Config, s: State, c: Ctx, d: Ctx)
    requires InitOnce(cfg, s, d)
    ensures InitOnce(cfg, Apply(cfg, s, Advance(c)), d)
  {
    if c in s.runs && s.runs[c] != [] {
      var e := s.runs[c][0];
      PerformInit(s.mem, c, cfg.version, e, d);
      if d == c {
        TailOrder(s.runs[c]);
        SnocOrder(LogOf(s, c), e);
      }
    }
    hide Turn, OnceMarked, NoMark, NoInit, Perform;
  }

  lemma StepKeepsInitOnce(cfg: Config, s: State, step: Step, d: Ctx)
    requires Saved(s) && InitOnce(cfg, s, d)
    ensures InitOnce(cfg, Apply(cfg, s, step), d)
  {
    hide Turn, OnceMarked, NoMark, NoInit, Perform;
    match step
    case Begin(c, o) =>
      TurnOrder(cfg, s.mem.NeedsInit(c, cfg.version), o);
      PutGet(s.mem, c, s.mem.Get(c), d);
    case Advance(c) => AdvanceKeepsInitOnce(cfg, s, c, d);
    case Restart =>
      ReloadedGet(s.disk, d);
      SettledTwice(s.mem.Get(d));
  }

  lemma {:induction false} EveryRunKeepsSaved(cfg: Config, file: Store, steps: seq<Step>)
    ensures Saved(Run(cfg, Boot(file), steps))
  {
    hide Saved, Apply;
    if steps == [] {
      BootSaved(file);
    } else {
      EveryRunKeepsSaved(cfg, file, steps[..|steps| - 1]);
      StepKeepsSaved(cfg, Run(cfg, Boot(file), steps[..|steps| - 1]), steps[|steps| - 1]);
    }
  }

  lemma {:induction false} EveryRunKeepsInitOnce(cfg: Config, file: Store, steps: seq<Step>, c: Ctx)
    ensures InitOnce(cfg, Run(cfg, Boot(file), steps), c)
  {
    hide Saved, Apply;
    if steps != [] {
      var prefix := steps[..|steps| - 1];
      EveryRunKeepsInitOnce(cfg, file, prefix, c);
      EveryRunKeepsSaved(cfg, file, prefix);
      hide InitOnce;
      StepKeepsInitOnce(cfg, Run(cfg, Boot(file), prefix), steps[|steps| - 1], c);
    }
  }

  /** Under one lifecycle version, however turns interleave and wherever the process
      dies and restarts: once a session has been marked initialized, or marked as
      doing without, none of its turns begins an initialization again. */
  lemma NeverInitializesAgain(cfg: Config, file: Store, steps: seq<Step>, c: Ctx, i: nat, j: nat)
    requires var log := LogOf(Run(cfg, Boot(file), steps), c); i < j < |log| && Marks(log[i])
    ensures !StartsInit(LogOf(Run(cfg, Boot(file), steps), c)[j])
  {
    EveryRunKeepsInitOnce(cfg, file, steps, c);
  }

  /** The outcome concluded last, `before` if there is none. */
  function LastConcluded(es: seq<Effect>, before: Option<Outcome>): Option<Outcome> {
    if es == [] then before
    else if es[|es| - 1].Conclude? then Some(es[|es| - 1].outcome)
    else LastConcluded(es[..|es| - 1], before)
  }

  /** Whether the mark set last was that of a session doing without, `before` if none
      was set. */
  function LastDegraded(es: seq<Effect>, before: bool): bool {
    if es == [] then before
    else if Marks(es[|es| - 1]) then es[|es| - 1].MarkDegraded?
    else LastDegraded(es[..|es| - 1], before)
  }

  /** What the store knows of a session, against the file it began with and what its
      turns have done: which versions still call for an initialization, whether it does
      without one, and how the last turn ended. */
  ghost predicate Remembers(cfg: Config, file: Store, s: State, c: Ctx) {
    && (forall v :: s.mem.NeedsInit(c, v) <==>
      if NoMark(LogOf(s, c)) then file.NeedsInit(c, v) else v != cfg.version)
    && s.mem.Get(c).degraded == LastDegraded(LogOf(s, c), file.Get(c).degraded)
    && s.mem.Get(c).last == LastConcluded(LogOf(s, c), file.Get(c).last)
  }

  lemma PerformMarks(st: Store, c: Ctx, version: string, e: Effect, d: Ctx, v: string)
    ensures var st' := Perform(st, c, version, e);
            && st'.NeedsInit(d, v) == (if d == c && Marks(e) then v != version else st.NeedsInit(d, v))
            && st'.Get(d).degraded == (if d == c && Marks(e) then e.MarkDegraded? else st.Get(d).degraded)
            && st'.Get(d).last == (if d == c && e.Conclude? then Some(e.outcome) else st.Get(d).last)
  {
  }

  lemma LogGrows(es: seq<Effect>, e: Effect, before: Option<Outcome>, degraded: bool)
    ensures NoMark(es + [e]) <==> NoMark(es) && !Marks(e)
    ensures LastConcluded(es + [e], before) == if e.Conclude? then Some(e.outcome) else LastConcluded(es, before)
    ensures LastDegraded(es + [e], degraded) == if Marks(e) then e.MarkDegraded? else LastDegraded(es, degraded)
  {
    assert (es + [e])[..|es|] == es;
    assert forall x :: x in es + [e] <==> x in es || x == e;
  }

  lemma AdvanceRemembers(cfg: Config, file: Store, s: State, c: Ctx, d: Ctx)
    requires Remembers(cfg, file, s, d)
    ensures Remembers(cfg, file, Apply(cfg, s, Advance(c)), d)
  {
    hide Perform, Turn, NoMark, LastConcluded, LastDegraded, Store.NeedsInit;
    var s' := Apply(cfg, s, Advance(c));
    if c in s.runs && s.runs[c] != [] {
      var e, log := s.runs[c][0], LogOf(s, c);
      LogGrows(log, e, file.Get(d).last, file.Get(d).degraded);
      assert LogOf(s', d) == if d == c then log + [e] else LogOf(s, d);
      PerformMarks(s.mem, c, cfg.version, e, d, "");
      forall v ensures s'.mem.NeedsInit(d, v) <==>
                       if NoMark(LogOf(s', d)) then file.NeedsInit(d, v) else v != cfg.version
      {
        PerformMarks(s.mem, c, cfg.version, e, d, v);
      }
    } else {
      assert s'.mem == s.mem && LogOf(s', d) == LogOf(s, d);
    }
  }

  lemma SameFlags(a: Store, b: Store, c: Ctx)
    requires Settled(a.Get(c)) == Settled(b.Get(c))
    ensures (forall v :: a.NeedsInit(c, v) <==> b.NeedsInit(c, v))
    ensures a.Get(c).degraded == b.Get(c).degraded && a.Get(c).last == b.Get(c).last
  {
    assert Settled(a.Get(c)).version == a.Get(c).version && Settled(b.Get(c)).version == b.Get(c).version;
  }

  lemma StepRemembers(cfg: Config, file: Store, s: State, step: Step, d: Ctx)
    requires Saved(s) && Remembers(cfg, file, s, d)
    ensures Remembers(cfg, file, Apply(cfg, s, step), d)
  {
    hide Turn, Perform, NoMark;
    match step
    case Begin(c, o) =>
      PutGet(s.mem, c, s.mem.Get(c), d);
      SameFlags(Apply(cfg, s, step).mem, s.mem, d);
    case Advance(c) => AdvanceRemembers(cfg, file, s, c, d);
    case Restart =>
      ReloadedGet(s.disk, d);
      SettledTwice(s.disk.Get(d));
      SameFlags(s.disk.Reloaded(), s.mem, d);
  }

  /** In every run, through all restarts. A marker of one version leaves the
      initialization of any other version due. */
  lemma {:induction false} EveryRunRemembers(cfg: Config, file: Store, steps: seq<Step>, c: Ctx)
    ensures Remembers(cfg, file, Run(cfg, Boot(file), steps), c)
  {
    hide Saved, Apply;
    if steps == [] {
      ReloadedGet(file, c);
      SettledTwice(file.Get(c));
      SameFlags(file.Reloaded(), file, c);
    } else {
      hide Remembers;
      var prefix := steps[..|steps| - 1];
      EveryRunRemembers(cfg, file, prefix, c);
      EveryRunKeepsSaved(cfg, file, prefix);
      StepRemembers(cfg, file, Run(cfg, Boot(file), prefix), steps[|steps| - 1], c);
    }
  }

  /** Put the process down after any such run and bring it up under another
      configuration: the next turn of a session that was marked begins with an
      initialization exactly when the version has changed. */
  lemma NewVersionInitializesAgain(was: Config, file: Store, steps: seq<Step>, cfg: Config, c: Ctx, o: Oracle)
    requires cfg.initialize && !NoMark(LogOf(Run(was, Boot(file), steps), c))
    ensures var booted := Boot(Run(was, Boot(file), steps).disk);
            var begun := Apply(cfg, booted, Begin(c, o));
            && c in begun.runs
            && ((exists e :: e in begun.runs[c] && StartsInit(e)) <==> cfg.version != was.version)
  {
    var s := Run(was, Boot(file), steps);
    EveryRunRemembers(was, file, steps, c);
    EveryRunKeepsSaved(was, file, steps);
    hide Run;
    ReloadedGet(s.disk, c);
    SettledTwice(s.disk.Get(c));
    SameFlags(s.disk.Reloaded(), s.mem, c);
    var needs := s.disk.Reloaded().NeedsInit(c, cfg.version);
    TurnOrder(cfg, needs, o);
    if needs {
      var es := Turn(cfg, needs, o);
      assert es[1] == Emit(o.initTurn, SessionInitializing) && es[1] in es && StartsInit(es[1]);
    }
    hide Turn;
  }

  // ----- A turn runs to its end -----

  function Advances(c: Ctx, n: nat): seq<Step> {
    seq(n, i => Advance(c))
  }

  lemma {:induction false} AdvancesRun(cfg: Config, s: State, c: Ctx, es: seq<Effect>, n: nat)
    requires c in s.runs && s.runs[c] == es && n <= |es|
    ensures var t := Run(cfg, s, Advances(c, n));
            && c in t.runs && t.runs[c] == es[n..] && LogOf(t, c) == LogOf(s, c) + es[..n]
            && t.mem == Performed(s.mem, c, cfg.version, es[..n])
  {
    hide Apply, Performed;
    var steps := Advances(c, n);
    if n == 0 {
      assert es[..0] == [] && es[0..] == es && LogOf(s, c) + [] == LogOf(s, c);
      NothingPerformed(s.mem, c, cfg.version);
    } else {
      assert steps[..n - 1] == Advances(c, n - 1) && steps[n - 1] == Advance(c);
      AdvancesRun(cfg, s, c, es, n - 1);
      var t := Run(cfg, s, Advances(c, n - 1));
      OneAdvance(cfg, t, c);
      assert t.runs[c][0] == es[n - 1] && t.runs[c][1..] == es[n..];
      assert es[..n] == es[..n - 1] + [es[n - 1]];
      PerformedSnoc(s.mem, c, cfg.version, es[..n - 1], es[n - 1]);
    }
  }

  lemma NothingPerformed(st: Store, c: Ctx, version: string)
    ensures Performed(st, c, version, []) == st
  {
  }

  lemma PerformedSnoc(st: Store, c: Ctx, version: string, es: seq<Effect>, e: Effect)
    ensures Performed(st, c, version, es + [e]) == Perform(Performed(st, c, version, es), c, version, e)
  {
    assert (es + [e])[..|es|] == es;
  }

  lemma OneAdvance(cfg: Config, s: State, c: Ctx)
    requires c in s.runs && s.runs[c] != []
    ensures var t, e := Apply(cfg, s, Advance(c)), s.runs[c][0];
            && c in t.runs && t.runs[c] == s.runs[c][1..] && LogOf(t, c) == LogOf(s, c) + [e]
            && t.mem == Perform(s.mem, c, cfg.version, e)
  {
    hide Perform;
  }

  /** A session's turn, left to itself, does what one turn of the session object does,
      effect by effect and nothing else, and then lets the next one in. */
  lemma TurnRunsToItsEnd(cfg: Config, s: State, c: Ctx, o: Oracle)
    requires c !in s.runs
    ensures var es := Turn(cfg, s.mem.NeedsInit(c, cfg.version), o);
            var t := Run(cfg, s, [Begin(c, o)] + Advances(c, |es| + 1));
            && c !in t.runs && LogOf(t, c) == LogOf(s, c) + es
            && t.mem == Performed(if cfg.initialize then s.mem.Put(c, s.mem.Get(c)) else s.mem, c, cfg.version, es)
  {
    var es := Turn(cfg, s.mem.NeedsInit(c, cfg.version), o);
    var begun := Apply(cfg, s, Begin(c, o));
    hide Turn, Performed;
    AdvancesRun(cfg, begun, c, es, |es|);
    var steps := Advances(c, |es| + 1);
    assert steps[..|es|] == Advances(c, |es|) && steps[|es|] == Advance(c);
    assert es[..|es|] == es && es[|es|..] == [];
    FirstThen(cfg, s, Begin(c, o), steps);
  }

  lemma {:induction false} FirstThen(cfg: Config, s: State, first: Step, steps: seq<Step>)
    ensures Run(cfg, s, [first] + steps) == Run(cfg, Apply(cfg, s, first), steps)
  {
    hide Apply;
    var all := [first] + steps;
    if steps == [] {
      assert all[..0] == [] && Run(cfg, s, []) == s;
    } else {
      assert all[..|all| - 1] == [first] + steps[..|steps| - 1];
      FirstThen(cfg, s, first, steps[..|steps| - 1]);
    }
  }

  /** The business turn starts exactly when the turn proceeds; a failed
      initialization that is not tolerated never lets it. */
  lemma BusinessStartsIff(cfg: Config, needsInit: bool, o: Oracle)
    ensures TurnRunning in Notes(Turn(cfg, needsInit, o)) <==>
            !(cfg.initialize && needsInit && !InitSucceeds(o.init) && !cfg.degraded)
  {
    var init, work := TurnFollowsTheGrammar(cfg, needsInit, o);
    hide Turn, Notes;
  }

  // ----- A session at rest is idle -----

  function PhaseOf(phase: Phase, e: Effect): Phase {
    match e
    case Enter(p, _) => p
    case Conclude(_) => Idle
    case _ => phase
  }

  function PhaseAfter(phase: Phase, es: seq<Effect>): Phase
    decreases |es|
  {
    if es == [] then phase else PhaseAfter(PhaseOf(phase, es[0]), es[1..])
  }

  lemma {:induction false} PhaseConcat(phase: Phase, a: seq<Effect>, b: seq<Effect>)
    ensures PhaseAfter(phase, a + b) == PhaseAfter(PhaseAfter(phase, a), b)
    decreases |a|
  {
    if a == [] {
      assert a + b == b;
    } else {
      assert (a + b)[0] == a[0] && (a + b)[1..] == a[1..] + b;
      PhaseConcat(PhaseOf(phase, a[0]), a[1..], b);
    }
  }

  lemma FinishRests(phase: Phase, turn: string, kind: Kind, finalized: bool, trigger: Trigger, err: Option<Failure>)
    ensures PhaseAfter(phase, Finish(turn, kind, finalized, trigger, err)) == Idle
  {
    var es := Finish(turn, kind, finalized, trigger, err);
    assert es[1..] == [es[1], es[2]] && es[1..][1..] == [es[2]] && [es[2]][1..] == [];
    assert PhaseAfter(Idle, [es[2]]) == Idle;
    assert PhaseAfter(Idle, es[1..]) == Idle;
  }

  lemma FinishFinalizeRests(phase: Phase, turn: string, kind: Kind, trigger: Trigger, err: Failure)
    ensures PhaseAfter(phase, FinishFinalize(turn, kind, trigger, err)) == Idle
  {
    var head := [Emit(turn, TurnFinalizationFailed(trigger, kind))];
    PhaseConcat(phase, head, Finish(turn, kind, false, trigger, Some(err)));
    FinishRests(PhaseAfter(phase, head), turn, kind, false, trigger, Some(err));
  }

  lemma GraceRests(phase: Phase, turn: string, trigger: Trigger, kind: Kind, t: SubTurn)
    ensures PhaseAfter(phase, Grace(turn, trigger, kind, t)) == Idle
  {
    hide PhaseAfter, FinishFinalize, Finish;
    match t.provider
    case OpenFails(e) => FinishFinalizeRests(phase, turn, ProviderError, trigger, NotOpened(e));
    case StartFails(e) => FinishFinalizeRests(phase, turn, ProviderError, trigger, NotOpened(e));
    case Streams(events) =>
      PhaseConcat(phase, Forwards(events), SettleGrace(turn, trigger, kind, t, events));
      var p := PhaseAfter(phase, Forwards(events));
      FinishFinalizeRests(p, turn, FinalizeTimeout, trigger, FinalizeTimedOut);
      FinishFinalizeRests(p, turn, ProviderError, trigger, FinalizationFailed);
      PhaseConcat(p, [Emit(turn, TurnFinalized(trigger))], Finish(turn, kind, true, trigger, None));
      FinishRests(PhaseAfter(p, [Emit(turn, TurnFinalized(trigger))]), turn, kind, true, trigger, None);
  }

  lemma FinalizeRests(phase: Phase, turn: string, trigger: Trigger, kind: Kind, t: SubTurn)
    ensures PhaseAfter(phase, Finalize(turn, trigger, kind, t)) == Idle
  {
    hide PhaseAfter, Grace;
    var head := [Enter(Finalizing, turn), Emit(turn, TurnFinalizing(trigger))];
    PhaseConcat(phase, head, Grace(turn, trigger, kind, t));
    GraceRests(PhaseAfter(phase, head), turn, trigger, kind, t);
  }

  lemma SettleRests(phase: Phase, cfg: Config, o: Oracle, events: seq<ProviderEvent>)
    ensures PhaseAfter(phase, Settle(cfg, o, events)) == Idle
  {
    hide PhaseAfter, Finalize, Finish;
    if cfg.finalize && o.work.deadline && !o.work.callerGone {
      var head := [Emit(o.turn, TurnSoftDeadline)];
      PhaseConcat(phase, head, Finalize(o.turn, SoftDeadline, RuntimeTimeout, o.grace));
      FinalizeRests(PhaseAfter(phase, head), o.turn, SoftDeadline, RuntimeTimeout, o.grace);
    } else if cfg.finalize && o.work.callerGone {
      FinalizeRests(phase, o.turn, GracefulStop, Canceled, o.grace);
    } else {
      FinishRests(phase, o.turn, ProviderError, false, NoTrigger, Some(Truncated));
      FinishRests(phase, o.turn, Completed, false, NoTrigger, None);
      match Terminal(events)
      case Some(Some(e)) =>
        var kind := if e.TurnCanceled? then Canceled else ProviderError;
        FinishRests(phase, o.turn, kind, false, NoTrigger, Some(Provider(e)));
      case _ =>
    }
  }

  lemma BusinessRests(phase: Phase, cfg: Config, o: Oracle)
    ensures PhaseAfter(phase, Business(cfg, o)) == Idle
  {
    hide PhaseAfter, Settle, Finish;
    var head := [Enter(Running, o.turn), Emit(o.turn, TurnRunning)];
    PhaseConcat(phase, head, Work(cfg, o));
    var p := PhaseAfter(phase, head);
    match o.work.provider
    case OpenFails(e) => FinishRests(p, o.turn, ProviderError, false, NoTrigger, Some(NotOpened(e)));
    case StartFails(e) => FinishRests(p, o.turn, ProviderError, false, NoTrigger, Some(NotOpened(e)));
    case Streams(events) =>
      PhaseConcat(p, Forwards(events), Settle(cfg, o, events));
      SettleRests(PhaseAfter(p, Forwards(events)), cfg, o, events);
  }

  lemma InitFailureRests(phase: Phase, cfg: Config, turn: string)
    ensures PhaseAfter(phase, InitFailure(cfg, turn)) == Idle
  {
    var es := InitFailure(cfg, turn);
    PhaseConcat(phase, es[..2], es[2..]);
    assert es == es[..2] + es[2..] && es[2..][0].Conclude?;
    PhaseConcat(Idle, es[3..4], es[4..]);
    assert es[2..][1..] == es[3..4] + es[4..];
    assert es[3..4][1..] == [] && es[4..][1..] == [];
  }

  lemma InitializeRests(phase: Phase, cfg: Config, o: Oracle)
    ensures PhaseAfter(phase, Initialize(cfg, o)) == Idle
  {
    var head := [Enter(Initializing, o.initTurn), Emit(o.initTurn, SessionInitializing)];
    if InitSucceeds(o.init) {
      var tail := [MarkInitialized, Enter(Idle, ""), Emit(o.initTurn, SessionInitialized)];
      PhaseConcat(phase, head, tail);
      assert tail[1..][1..] == [Emit(o.initTurn, SessionInitialized)] && tail[1..][1..][1..] == [];
      assert PhaseAfter(Idle, tail[1..][1..]) == Idle;
    } else {
      PhaseConcat(phase, head, InitFailure(cfg, o.initTurn));
      InitFailureRests(PhaseAfter(phase, head), cfg, o.initTurn);
    }
  }

  lemma TurnRests(phase: Phase, cfg: Config, needsInit: bool, o: Oracle)
    ensures PhaseAfter(phase, Turn(cfg, needsInit, o)) == Idle
  {
    assert !Proceeds(cfg, needsInit, o) ==> cfg.initialize && needsInit;
    var a := if cfg.initialize && needsInit then Initialize(cfg, o) else [];
    var b := if Proceeds(cfg, needsInit, o) then Business(cfg, o) else [];
    PhaseConcat(phase, a, b);
    InitializeRests(phase, cfg, o);
    BusinessRests(PhaseAfter(phase, a), cfg, o);
    hide Business, Initialize, Proceeds;
  }

  /** What is left of each turn brings its session back to idle; a session with no
      turn is there already. */
  ghost predicate Rests(s: State, c: Ctx) {
    PhaseAfter(s.mem.Get(c).phase, if c in s.runs then s.runs[c] else []) == Idle
  }

  lemma PerformPhase(st: Store, c: Ctx, version: string, e: Effect, d: Ctx)
    ensures Perform(st, c, version, e).Get(d).phase == if d == c then PhaseOf(st.Get(d).phase, e) else st.Get(d).phase
  {
  }

  lemma StepKeepsRests(cfg: Config, s: State, step: Step, d: Ctx)
    requires Rests(s, d)
    ensures Rests(Apply(cfg, s, step), d)
  {
    hide Turn, Perform;
    match step
    case Begin(c, o) =>
      TurnRests(s.mem.Get(c).phase, cfg, s.mem.NeedsInit(c, cfg.version), o);
      PutGet(s.mem, c, s.mem.Get(c), d);
    case Advance(c) =>
      if c in s.runs && s.runs[c] != [] { PerformPhase(s.mem, c, cfg.version, s.runs[c][0], d); }
    case Restart => ReloadedGet(s.disk, d);
  }

  /** In every run, with any restarts: a session with no turn in progress is idle;
      after a restart every session is. */
  lemma {:induction false} QuietSessionIsIdle(cfg: Config, file: Store, steps: seq<Step>, c: Ctx)
    ensures var s := Run(cfg, Boot(file), steps);
            && Rests(s, c)
            && (c !in s.runs ==> s.mem.Get(c).phase == Idle)
            && Apply(cfg, s, Restart).mem.Get(c).phase == Idle
  {
    var s := Run(cfg, Boot(file), steps);
    ReloadedGet(s.disk, c);
    ReloadedGet(file, c);
    if steps != [] {
      QuietSessionIsIdle(cfg, file, steps[..|steps| - 1], c);
      hide Rests;
      StepKeepsRests(cfg, Run(cfg, Boot(file), steps[..|steps| - 1]), steps[|steps| - 1], c);
    }
  }

  /** The phase and the turn the effects leave a session in. */
  function Standing(es: seq<Effect>): (Phase, string) {
    if es == [] then (Idle, "")
    else
      match es[|es| - 1]
      case Enter(phase, turn) => (phase, turn)
      case Conclude(_) => (Idle, "")
      case _ => Standing(es[..|es| - 1])
  }

  /** Who comes to rest names no turn. */
  predicate Tidy(es: seq<Effect>) {
    forall e :: e in es && e.Enter? && e.phase == Idle ==> e.turn == ""
  }

  lemma GraceTidy(turn: string, trigger: Trigger, kind: Kind, t: SubTurn)
    ensures Tidy(Grace(turn, trigger, kind, t))
  {
    if t.provider.Streams? { ForwardsOnly(t.provider.events); }
  }

  lemma BusinessTidy(cfg: Config, o: Oracle)
    ensures Tidy(Business(cfg, o))
  {
    GraceTidy(o.turn, SoftDeadline, RuntimeTimeout, o.grace);
    GraceTidy(o.turn, GracefulStop, Canceled, o.grace);
    hide Grace;
    if o.work.provider.Streams? { ForwardsOnly(o.work.provider.events); }
  }

  lemma TurnTidy(cfg: Config, needsInit: bool, o: Oracle)
    ensures Tidy(Turn(cfg, needsInit, o))
  {
    BusinessTidy(cfg, o);
    hide Business;
  }

  /** What the store says of a session at work is what its turns have said last; at rest
      it names no turn. */
  predicate Named(s: State, c: Ctx) {
    var rec := s.mem.Get(c);
    && (if rec.phase == Idle then rec.turn == "" else (rec.phase, rec.turn) == Standing(LogOf(s, c)))
    && (c in s.runs ==> Tidy(s.runs[c]))
  }

  lemma PerformStands(st: Store, c: Ctx, version: string, e: Effect, d: Ctx)
    ensures var rec, rec' := st.Get(d), Perform(st, c, version, e).Get(d);
            if d == c && (e.Enter? || e.Conclude?) then (rec'.phase, rec'.turn) == Standing([e])
            else rec'.phase == rec.phase && rec'.turn == rec.turn
  {
  }

  lemma StandingSnoc(es: seq<Effect>, e: Effect)
    ensures Standing(es + [e]) == if e.Enter? || e.Conclude? then Standing([e]) else Standing(es)
  {
    assert (es + [e])[..|es|] == es;
  }

  lemma AdvanceNames(cfg: Config, s: State, c: Ctx, d: Ctx)
    requires Named(s, d)
    ensures Named(Apply(cfg, s, Advance(c)), d)
  {
    hide Perform;
    if c in s.runs && s.runs[c] != [] {
      var e := s.runs[c][0];
      assert e in s.runs[c];
      PerformStands(s.mem, c, cfg.version, e, d);
      StandingSnoc(LogOf(s, c), e);
      assert forall x :: x in s.runs[c][1..] ==> x in s.runs[c];
    }
  }

  /** In every run. */
  lemma {:induction false} EveryRunNames(cfg: Config, file: Store, steps: seq<Step>, c: Ctx)
    requires file.Get(c).phase == Idle ==> file.Get(c).turn == ""
    ensures Named(Run(cfg, Boot(file), steps), c)
  {
    if steps == [] {
      ReloadedGet(file, c);
    } else {
      hide Turn, Performed, Settled, Perform, Standing;
      var prefix, last := steps[..|steps| - 1], steps[|steps| - 1];
      EveryRunNames(cfg, file, prefix, c);
      EveryRunKeepsSaved(cfg, file, prefix);
      StepNames(cfg, Run(cfg, Boot(file), prefix), last, c);
    }
  }

  lemma StepNames(cfg: Config, s: State, step: Step, d: Ctx)
    requires Named(s, d) && Saved(s)
    ensures Named(Apply(cfg, s, step), d)
  {
    hide Turn, Perform, Standing, Tidy;
    match step
    case Begin(c, o) =>
      TurnTidy(cfg, s.mem.NeedsInit(c, cfg.version), o);
      PutGet(s.mem, c, s.mem.Get(c), d);
    case Advance(c) => AdvanceNames(cfg, s, c, d);
    case Restart =>
      ReloadedGet(s.disk, d);
      RestIsNameless(s.disk.Get(d), s.mem.Get(d));
  }

  lemma RestIsNameless(a: Record, b: Record)
    requires Settled(a) == Settled(b) && (b.phase == Idle ==> b.turn == "")
    ensures Settled(a).phase == Idle && Settled(a).turn == ""
  {
  }

  // ----- The event log -----

  predicate Increasing(es: seq<Event>) {
    forall i, j :: 0 <= i < j < |es| ==> es[i].seqno < es[j].seqno
  }

  predicate UpTo(es: seq<Event>, n: nat) {
    forall i :: 0 <= i < |es| ==> es[i].seqno <= n
  }

  /** A file whose logs are in order, as every file this store writes is. */
  ghost predicate GoodFile(file: Store) {
    forall c :: Increasing(file.Get(c).events) && UpTo(file.Get(c).events, file.seqno)
  }

  ghost predicate LogKept(s: State, c: Ctx) {
    && s.mem.Get(c).events == Newest(HistOf(s, c))
    && Increasing(HistOf(s, c)) && UpTo(HistOf(s, c), s.mem.seqno)
  }

  lemma NewestSnoc(es: seq<Event>, e: Event)
    ensures Newest(Newest(es) + [e]) == Newest(es + [e])
  {
  }

  lemma AppendedLog(es: seq<Event>, n: nat, turn: string, note: Note)
    requires Increasing(es) && UpTo(es, n)
    ensures Increasing(es + [Event(n + 1, turn, note)]) && UpTo(es + [Event(n + 1, turn, note)], n + 1)
  {
  }

  lemma PerformEvents(st: Store, c: Ctx, version: string, e: Effect, d: Ctx)
    ensures var st' := Perform(st, c, version, e);
            if e.Emit? then
              && st'.seqno == st.seqno + 1
              && st'.Get(d).events == if d == c then Newest(st.Get(d).events + [Event(st.seqno + 1, e.turn, e.note)])
                else st.Get(d).events
            else st'.seqno == st.seqno && st'.Get(d).events == st.Get(d).events
  {
  }

  lemma AdvanceKeepsLog(cfg: Config, s: State, c: Ctx, d: Ctx)
    requires LogKept(s, d)
    ensures LogKept(Apply(cfg, s, Advance(c)), d)
  {
    hide Turn, Perform, Newest, Increasing, UpTo;
    if c in s.runs && s.runs[c] != [] {
      var e := s.runs[c][0];
      PerformEvents(s.mem, c, cfg.version, e, d);
      MoreRoom(HistOf(s, d), s.mem.seqno);
      if d == c && e.Emit? {
        NewestSnoc(HistOf(s, c), Event(s.mem.seqno + 1, e.turn, e.note));
        AppendedLog(HistOf(s, c), s.mem.seqno, e.turn, e.note);
      }
    }
  }

  lemma MoreRoom(es: seq<Event>, n: nat)
    requires UpTo(es, n)
    ensures UpTo(es, n + 1)
  {
  }

  lemma SettledEvents(rec: Record)
    ensures Settled(rec).events == Newest(rec.events)
  {
  }

  lemma NewestTwice(es: seq<Event>)
    ensures Newest(Newest(es)) == Newest(es)
  {
  }

  lemma StepKeepsLog(cfg: Config, s: State, step: Step, d: Ctx)
    requires Saved(s) && LogKept(s, d)
    ensures LogKept(Apply(cfg, s, step), d)
  {
    hide Turn, Perform, Newest, Increasing, Settled;
    match step
    case Begin(c, o) => PutGet(s.mem, c, s.mem.Get(c), d);
    case Advance(c) => AdvanceKeepsLog(cfg, s, c, d);
    case Restart =>
      ReloadedGet(s.disk, d);
      SettledEvents(s.mem.Get(d));
      NewestTwice(HistOf(s, d));
  }

  lemma BootLog(file: Store, c: Ctx)
    requires GoodFile(file)
    ensures LogKept(Boot(file), c)
  {
    ReloadedGet(file, c);
    SettledEvents(file.Get(c));
    assert Increasing(file.Get(c).events);
    hide Increasing, Newest, Settled;
  }

  lemma {:induction false} EveryRunKeepsLog(cfg: Config, file: Store, steps: seq<Step>, c: Ctx)
    requires GoodFile(file)
    ensures LogKept(Run(cfg, Boot(file), steps), c)
  {
    hide Apply, Saved, LogKept, GoodFile;
    if steps == [] {
      BootLog(file, c);
    } else {
      var prefix := steps[..|steps| - 1];
      EveryRunKeepsLog(cfg, file, prefix, c);
      EveryRunKeepsSaved(cfg, file, prefix);
      StepKeepsLog(cfg, Run(cfg, Boot(file), prefix), steps[|steps| - 1], c);
    }
  }

  lemma NewestIncreasing(es: seq<Event>)
    requires Increasing(es)
    ensures Increasing(Newest(es)) && |Newest(es)| <= MAX_EVENTS
  {
  }

  /** Every session's event log is, at every moment of every run, the newest 500 or
      fewer of all events ever appended for it, restarts included, and their
      numbers strictly increase. */
  lemma EventLogIsTheNewest(cfg: Config, file: Store, steps: seq<Step>, c: Ctx)
    requires GoodFile(file)
    ensures var s := Run(cfg, Boot(file), steps);
            && s.mem.Get(c).events == Newest(HistOf(s, c)) && |s.mem.Get(c).events| <= MAX_EVENTS
            && Increasing(s.mem.Get(c).events) && UpTo(HistOf(s, c), s.mem.seqno)
  {
    EveryRunKeepsLog(cfg, file, steps, c);
    hide Run, Newest, Increasing, UpTo;
    NewestIncreasing(HistOf(Run(cfg, Boot(file), steps), c));
  }

  // ----- The store and the streams -----

  function NotesOf(es: seq<Event>): (ns: seq<Note>)
    ensures |ns| == |es|
  {
    seq(|es|, i requires 0 <= i < |es| => es[i].note)
  }

  function NewestNotes(ns: seq<Note>): seq<Note> {
    if |ns| > MAX_EVENTS then ns[|ns| - MAX_EVENTS..] else ns
  }

  /** The lifecycle events a caller reads from a stream. */
  function NotesRead(out: seq<Out>): seq<Note> {
    if out == [] then []
    else NotesRead(out[..|out| - 1]) + if out[|out| - 1].Lifecycle? then [out[|out| - 1].note] else []
  }

  lemma NotesOfNewest(es: seq<Event>)
    ensures NotesOf(Newest(es)) == NewestNotes(NotesOf(es))
  {
  }

  lemma NotesOfSnoc(es: seq<Event>, e: Event)
    ensures NotesOf(es + [e]) == NotesOf(es) + [e.note]
  {
  }

  lemma NewestNotesTwice(ns: seq<Note>)
    ensures NewestNotes(NewestNotes(ns)) == NewestNotes(ns)
  {
  }

  lemma NewestNotesSnoc(ns: seq<Note>, n: Note)
    ensures NewestNotes(NewestNotes(ns) + [n]) == NewestNotes(ns + [n])
  {
  }

  lemma ReadSnoc(es: seq<Effect>, e: Effect)
    ensures NotesRead(Streamed(es + [e])) == NotesRead(Streamed(es)) + if e.Emit? then [e.note] else []
  {
    assert (es + [e])[..|es|] == es;
    var out := Streamed(es);
    if Shown(e) == [] {
      assert Streamed(es + [e]) == out;
    } else {
      assert (out + Shown(e))[..|out|] == out;
    }
  }

  /** The store's log of a session holds the newest part of: what the first file
      held, then what the session's streams have shown. */
  predicate Stored(s: State, c: Ctx, before: seq<Note>) {
    NotesOf(s.mem.Get(c).events) == NewestNotes(before + NotesRead(Streamed(LogOf(s, c))))
  }

  lemma AppendStores(events: seq<Event>, before: seq<Note>, es: seq<Effect>, e: Effect, ev: Event)
    requires NotesOf(events) == NewestNotes(before + NotesRead(Streamed(es))) && e.Emit? && ev.note == e.note
    ensures NotesOf(Newest(events + [ev])) == NewestNotes(before + NotesRead(Streamed(es + [e])))
  {
    hide NotesOf, Newest, NewestNotes, NotesRead, Streamed;
    var all := before + NotesRead(Streamed(es));
    NotesOfNewest(events + [ev]);
    NotesOfSnoc(events, ev);
    ReadSnoc(es, e);
    NewestNotesSnoc(all, e.note);
    assert all + [e.note] == before + (NotesRead(Streamed(es)) + [e.note]);
  }

  lemma AdvanceKeepsStored(cfg: Config, s: State, c: Ctx, d: Ctx, before: seq<Note>)
    requires Stored(s, d, before)
    ensures Stored(Apply(cfg, s, Advance(c)), d, before)
  {
    hide Turn, Perform, Newest, NotesOf, NewestNotes, NotesRead, Streamed;
    if c in s.runs && s.runs[c] != [] {
      var e := s.runs[c][0];
      PerformEvents(s.mem, c, cfg.version, e, d);
      if d == c {
        ReadSnoc(LogOf(s, c), e);
        if e.Emit? {
          AppendStores(s.mem.Get(c).events, before, LogOf(s, c), e, Event(s.mem.seqno + 1, e.turn, e.note));
        } else {
          assert NotesRead(Streamed(LogOf(s, c) + [e])) == NotesRead(Streamed(LogOf(s, c)));
        }
      }
    }
  }

  /** The file holds the same, once a restart has cut it to the newest. */
  lemma FileHoldsTheSame(s: State, c: Ctx, before: seq<Note>)
    requires Saved(s) && Stored(s, c, before)
    ensures NotesOf(Newest(s.disk.Get(c).events)) == NewestNotes(before + NotesRead(Streamed(LogOf(s, c))))
  {
    SettledEvents(s.disk.Get(c));
    SettledEvents(s.mem.Get(c));
    hide Newest, NotesOf, NewestNotes, NotesRead, Streamed, Settled;
    NotesOfNewest(s.mem.Get(c).events);
    NewestNotesTwice(before + NotesRead(Streamed(LogOf(s, c))));
  }

  lemma StepKeepsStored(cfg: Config, s: State, step: Step, d: Ctx, before: seq<Note>)
    requires Saved(s) && Stored(s, d, before)
    ensures Stored(Apply(cfg, s, step), d, before)
  {
    hide Turn, Perform, Newest, NotesOf, NewestNotes, NotesRead, Streamed, Settled;
    match step
    case Begin(c, o) => PutGet(s.mem, c, s.mem.Get(c), d);
    case Advance(c) => AdvanceKeepsStored(cfg, s, c, d, before);
    case Restart =>
      ReloadedGet(s.disk, d);
      SettledEvents(s.disk.Get(d));
      FileHoldsTheSame(s, d, before);
  }

  lemma BootStored(file: Store, c: Ctx)
    ensures Stored(Boot(file), c, NotesOf(file.Get(c).events))
  {
    ReloadedGet(file, c);
    SettledEvents(file.Get(c));
    NotesOfNewest(file.Get(c).events);
    assert NotesRead(Streamed([])) == [];
    hide Newest, NotesOf, NewestNotes, Settled;
    assert NotesOf(file.Get(c).events) + [] == NotesOf(file.Get(c).events);
  }

  lemma {:induction false} EveryRunKeepsStored(cfg: Config, file: Store, steps: seq<Step>, c: Ctx)
    ensures Stored(Run(cfg, Boot(file), steps), c, NotesOf(file.Get(c).events))
  {
    hide Apply, Stored, Saved;
    if steps == [] {
      BootStored(file, c);
    } else {
      var prefix := steps[..|steps| - 1];
      EveryRunKeepsStored(cfg, file, prefix, c);
      EveryRunKeepsSaved(cfg, file, prefix);
      StepKeepsStored(cfg, Run(cfg, Boot(file), prefix), steps[|steps| - 1], c, NotesOf(file.Get(c).events));
    }
  }

  /** What the store keeps of a session, in memory and on disk, is at every moment of
      every run the newest part of what the first file held followed by what the
      session's streams have shown their callers, in that order. */
  lemma DurableLogIsWhatWasAnnounced(cfg: Config, file: Store, steps: seq<Step>, c: Ctx)
    ensures var s := Run(cfg, Boot(file), steps);
            var all := NotesOf(file.Get(c).events) + NotesRead(Streamed(LogOf(s, c)));
            NotesOf(s.mem.Get(c).events) == NewestNotes(all) == NotesOf(Newest(s.disk.Get(c).events))
  {
    EveryRunKeepsStored(cfg, file, steps, c);
    EveryRunKeepsSaved(cfg, file, steps);
    hide Run, Saved, Newest, NotesOf, NewestNotes, NotesRead, Streamed;
    FileHoldsTheSame(Run(cfg, Boot(file), steps), c, NotesOf(file.Get(c).events));
  }
}
