/** One streamed turn under lifecycle control: initialize once, run the business
    turn, finalize it when its deadline or its caller is gone. */
module Lifecycles {
  import opened Options
  import opened S = LifecycleStores

  datatype Config = Config(version: string, initialize: bool, degraded: bool, finalize: bool)

  datatype ProviderErr = TurnCanceled | OtherErr(text: string)

  datatype ProviderEvent = Text(text: string) | Tool(data: string) | TurnDone(err: Option<ProviderErr>)

  datatype Provider = OpenFails(err: ProviderErr) | StartFails(err: ProviderErr) | Streams(events: seq<ProviderEvent>)

  /** One turn of the provider: what it did, and what the two contexts say once its
      stream has closed. */
  datatype SubTurn = SubTurn(provider: Provider, deadline: bool, callerGone: bool)

  datatype Oracle = Oracle(initTurn: string, turn: string, init: SubTurn, work: SubTurn, grace: SubTurn)

  datatype Failure =
    | InitializationFailed
    | NotOpened(err: ProviderErr)
    | Truncated
    | Provider(err: ProviderErr)
    | FinalizeTimedOut
    | FinalizationFailed

  /** What a turn does to its store and to its stream, in order. */
  datatype Effect =
    | Enter(phase: Phase, turn: string)
    | Emit(turn: string, note: Note)
    | MarkInitialized
    | MarkDegraded
    | Conclude(outcome: Outcome)
    | Forward(event: ProviderEvent)
    | Done(err: Option<Failure>)

  // ----- Draining a provider stream -----

  /** The terminal event that counts: the last one seen. */
  function Terminal(events: seq<ProviderEvent>): Option<Option<ProviderErr>> {
    if events == [] then None
    else
      var last := events[|events| - 1];
      if last.TurnDone? then Some(last.err) else Terminal(events[..|events| - 1])
  }

  function Forwards(events: seq<ProviderEvent>): seq<Effect> {
    if events == [] then []
    else
      var last := events[|events| - 1];
      Forwards(events[..|events| - 1]) + if last.TurnDone? then [] else [Forward(last)]
  }

  predicate CleanEnd(p: Provider) {
    p.Streams? && Terminal(p.events) == Some(None)
  }

  // ----- The composite turn -----

  predicate InitSucceeds(t: SubTurn) {
    CleanEnd(t.provider) && !t.deadline && !t.callerGone
  }

  function Initialize(cfg: Config, o: Oracle): seq<Effect> {
    var head := [Enter(Initializing, o.initTurn), Emit(o.initTurn, SessionInitializing)];
    if InitSucceeds(o.init) then
      head + [MarkInitialized, Enter(Idle, ""), Emit(o.initTurn, SessionInitialized)]
    else
      head + InitFailure(cfg, o.initTurn)
  }

  function InitFailure(cfg: Config, turn: string): seq<Effect> {
    [Enter(Idle, ""), Emit(turn, SessionInitFailed),
     Conclude(Outcome(turn, InitializationFailure, false, NoTrigger)),
     Emit(turn, TurnOutcome(InitializationFailure, NoTrigger)),
     if cfg.degraded then MarkDegraded else Done(Some(InitializationFailed))]
  }

  function Finish(turn: string, kind: Kind, finalized: bool, trigger: Trigger, err: Option<Failure>): seq<Effect> {
    [Conclude(Outcome(turn, kind, finalized, trigger)), Emit(turn, TurnOutcome(kind, trigger)), Done(err)]
  }

  function FinishFinalize(turn: string, kind: Kind, trigger: Trigger, err: Failure): seq<Effect> {
    [Emit(turn, TurnFinalizationFailed(trigger, kind))] + Finish(turn, kind, false, trigger, Some(err))
  }

  /** How a finalize turn ends once its stream has closed: the grace deadline is
      asked first, then the provider. */
  function SettleGrace(
      turn: string, trigger: Trigger, kind: Kind, t: SubTurn, events: seq<ProviderEvent>): seq<Effect> {
    if t.deadline then FinishFinalize(turn, FinalizeTimeout, trigger, FinalizeTimedOut)
    else if Terminal(events) == Some(None) then
      [Emit(turn, TurnFinalized(trigger))] + Finish(turn, kind, true, trigger, None)
    else FinishFinalize(turn, ProviderError, trigger, FinalizationFailed)
  }

  function Grace(turn: string, trigger: Trigger, kind: Kind, t: SubTurn): seq<Effect> {
    match t.provider
    case OpenFails(e) => FinishFinalize(turn, ProviderError, trigger, NotOpened(e))
    case StartFails(e) => FinishFinalize(turn, ProviderError, trigger, NotOpened(e))
    case Streams(events) => Forwards(events) + SettleGrace(turn, trigger, kind, t, events)
  }

  function Finalize(turn: string, trigger: Trigger, kind: Kind, t: SubTurn): seq<Effect> {
    [Enter(Finalizing, turn), Emit(turn, TurnFinalizing(trigger))] + Grace(turn, trigger, kind, t)
  }

  /** How a business turn ends once its stream has closed: deadline and caller are
      asked first, then the provider. */
  function Settle(cfg: Config, o: Oracle, events: seq<ProviderEvent>): seq<Effect> {
    if cfg.finalize && o.work.deadline && !o.work.callerGone then
      [Emit(o.turn, TurnSoftDeadline)] + Finalize(o.turn, SoftDeadline, RuntimeTimeout, o.grace)
    else if cfg.finalize && o.work.callerGone then
      Finalize(o.turn, GracefulStop, Canceled, o.grace)
    else
      match Terminal(events)
      case None => Finish(o.turn, ProviderError, false, NoTrigger, Some(Truncated))
      case Some(None) => Finish(o.turn, Completed, false, NoTrigger, None)
      case Some(Some(e)) =>
        Finish(o.turn, if e.TurnCanceled? then Canceled else ProviderError, false, NoTrigger, Some(Provider(e)))
  }

  function Work(cfg: Config, o: Oracle): seq<Effect> {
    match o.work.provider
    case OpenFails(e) => Finish(o.turn, ProviderError, false, NoTrigger, Some(NotOpened(e)))
    case StartFails(e) => Finish(o.turn, ProviderError, false, NoTrigger, Some(NotOpened(e)))
    case Streams(events) => Forwards(events) + Settle(cfg, o, events)
  }

  function Business(cfg: Config, o: Oracle): seq<Effect> {
    [Enter(Running, o.turn), Emit(o.turn, TurnRunning)] + Work(cfg, o)
  }

  /** Whether the business turn is reached. */
  predicate Proceeds(cfg: Config, needsInit: bool, o: Oracle) {
    !(cfg.initialize && needsInit) || InitSucceeds(o.init) || cfg.degraded
  }

  function Turn(cfg: Config, needsInit: bool, o: Oracle): seq<Effect> {
    (if cfg.initialize && needsInit then Initialize(cfg, o) else [])
    + if Proceeds(cfg, needsInit, o) then Business(cfg, o) else []
  }

  // ----- Exactly one terminal event, and it is last -----

  predicate OnlyLastIsDone(es: seq<Effect>) {
    es != [] && es[|es| - 1].Done? && forall i :: 0 <= i < |es| - 1 ==> !es[i].Done?
  }

  predicate NoDone(es: seq<Effect>) {
    forall e :: e in es ==> !e.Done?
  }

  lemma {:induction false} ForwardsOnly(events: seq<ProviderEvent>)
    ensures forall e :: e in Forwards(events) ==> e.Forward?
  {
    if events != [] { ForwardsOnly(events[..|events| - 1]); }
  }

  lemma DoneAfter(a: seq<Effect>, b: seq<Effect>)
    requires NoDone(a) && OnlyLastIsDone(b)
    ensures OnlyLastIsDone(a + b)
  {
    forall i | 0 <= i < |a + b| - 1 ensures !(a + b)[i].Done? {
      if i < |a| { assert a[i] in a; }
    }
  }

  lemma GraceEnds(turn: string, trigger: Trigger, kind: Kind, t: SubTurn)
    ensures OnlyLastIsDone(Grace(turn, trigger, kind, t))
  {
    if t.provider.Streams? {
      ForwardsOnly(t.provider.events);
      DoneAfter(Forwards(t.provider.events), SettleGrace(turn, trigger, kind, t, t.provider.events));
    }
  }

  lemma FinalizeEnds(turn: string, trigger: Trigger, kind: Kind, t: SubTurn)
    ensures OnlyLastIsDone(Finalize(turn, trigger, kind, t))
  {
    GraceEnds(turn, trigger, kind, t);
    hide Grace;
    DoneAfter([Enter(Finalizing, turn), Emit(turn, TurnFinalizing(trigger))], Grace(turn, trigger, kind, t));
  }

  lemma SettleEnds(cfg: Config, o: Oracle, events: seq<ProviderEvent>)
    ensures OnlyLastIsDone(Settle(cfg, o, events))
  {
    FinalizeEnds(o.turn, SoftDeadline, RuntimeTimeout, o.grace);
    FinalizeEnds(o.turn, GracefulStop, Canceled, o.grace);
    hide Finalize;
  }

  lemma WorkEnds(cfg: Config, o: Oracle)
    ensures OnlyLastIsDone(Work(cfg, o))
  {
    if o.work.provider.Streams? {
      var events := o.work.provider.events;
      ForwardsOnly(events);
      SettleEnds(cfg, o, events);
      DoneAfter(Forwards(events), Settle(cfg, o, events));
    }
    hide Settle;
  }

  lemma BusinessEnds(cfg: Config, o: Oracle)
    ensures OnlyLastIsDone(Business(cfg, o))
  {
    WorkEnds(cfg, o);
    hide Work;
    DoneAfter([Enter(Running, o.turn), Emit(o.turn, TurnRunning)], Work(cfg, o));
  }

  /** Every turn, whatever the provider, the deadlines and the caller do, ends its
      stream with exactly one terminal event, after everything else. */
  lemma TurnEndsOnce(cfg: Config, needsInit: bool, o: Oracle)
    ensures OnlyLastIsDone(Turn(cfg, needsInit, o))
  {
    BusinessEnds(cfg, o);
    hide Business;
    var init := if cfg.initialize && needsInit then Initialize(cfg, o) else [];
    if Proceeds(cfg, needsInit, o) {
      DoneAfter(init, Business(cfg, o));
    } else {
      assert Turn(cfg, needsInit, o) == init;
    }
  }

  // ----- The grammar of lifecycle events -----

  /** The lifecycle events of a run of effects, in order. */
  function Notes(es: seq<Effect>): seq<Note> {
    if es == [] then []
    else Notes(es[..|es| - 1]) + if es[|es| - 1].Emit? then [es[|es| - 1].note] else []
  }

  lemma {:induction false} NotesConcat(a: seq<Effect>, b: seq<Effect>)
    ensures Notes(a + b) == Notes(a) + Notes(b)
  {
    if b == [] {
      assert a + b == a;
    } else {
      var n := |b| - 1;
      assert (a + b)[..|a + b| - 1] == a + b[..n];
      NotesConcat(a, b[..n]);
    }
  }

  lemma NotesOfOne(e: Effect)
    ensures Notes([e]) == if e.Emit? then [e.note] else []
  {
    assert [e][..0] == [];
  }

  lemma NotesOfTwo(a: Effect, b: Effect)
    ensures Notes([a, b]) == Notes([a]) + Notes([b])
  {
    NotesConcat([a], [b]);
  }

  lemma NotesOfThree(a: Effect, b: Effect, c: Effect)
    ensures Notes([a, b, c]) == Notes([a]) + Notes([b]) + Notes([c])
  {
    NotesConcat([a, b], [c]);
    NotesOfTwo(a, b);
    assert [a, b] + [c] == [a, b, c];
  }

  lemma {:induction false} ForwardsAreSilent(events: seq<ProviderEvent>)
    ensures Notes(Forwards(events)) == []
  {
    if events != [] {
      var n := |events| - 1;
      ForwardsAreSilent(events[..n]);
      if events[n].TurnDone? {
        assert Forwards(events) == Forwards(events[..n]);
      } else {
        NotesConcat(Forwards(events[..n]), [Forward(events[n])]);
        NotesOfOne(Forward(events[n]));
      }
    }
  }

  /** How a finalize turn ends: finalized with the kind its trigger calls for, or
      failed, and then the outcome says how. */
  predicate GraceShape(ns: seq<Note>, trigger: Trigger, kind: Kind) {
    && |ns| == 2
    && match ns[0]
       case TurnFinalized(t) => t == trigger && ns[1] == TurnOutcome(kind, trigger)
       case TurnFinalizationFailed(t, k) =>
         t == trigger && k in {ProviderError, FinalizeTimeout} && ns[1] == TurnOutcome(k, trigger)
       case _ => false
  }

  /** How a business turn goes on after it is announced: an outcome at once, or the
      soft deadline and a finalize turn, or a graceful stop and a finalize turn. */
  predicate WorkShape(ns: seq<Note>) {
    match |ns|
    case 1 => ns[0].TurnOutcome? && ns[0].trigger == NoTrigger && ns[0].kind in {Completed, Canceled, ProviderError}
    case 3 => ns[0] == TurnFinalizing(GracefulStop) && GraceShape(ns[1..], GracefulStop, Canceled)
    case 4 =>
      && ns[0] == TurnSoftDeadline && ns[1] == TurnFinalizing(SoftDeadline)
      && GraceShape(ns[2..], SoftDeadline, RuntimeTimeout)
    case _ => false
  }

  predicate InitShape(ns: seq<Note>) {
    || ns == [SessionInitializing, SessionInitialized]
    || ns == [SessionInitializing, SessionInitFailed, TurnOutcome(InitializationFailure, NoTrigger)]
  }

  lemma FinishNotes(turn: string, kind: Kind, finalized: bool, trigger: Trigger, err: Option<Failure>)
    ensures Notes(Finish(turn, kind, finalized, trigger, err)) == [TurnOutcome(kind, trigger)]
  {
    var o, e, d := Conclude(Outcome(turn, kind, finalized, trigger)), Emit(turn, TurnOutcome(kind, trigger)), Done(err);
    NotesOfThree(o, e, d);
    NotesOfOne(o);
    NotesOfOne(e);
    NotesOfOne(d);
  }

  lemma FinishFinalizeNotes(turn: string, kind: Kind, trigger: Trigger, err: Failure)
    ensures Notes(FinishFinalize(turn, kind, trigger, err)) ==
            [TurnFinalizationFailed(trigger, kind), TurnOutcome(kind, trigger)]
  {
    NotesConcat([Emit(turn, TurnFinalizationFailed(trigger, kind))], Finish(turn, kind, false, trigger, Some(err)));
    NotesOfOne(Emit(turn, TurnFinalizationFailed(trigger, kind)));
    FinishNotes(turn, kind, false, trigger, Some(err));
  }

  lemma GraceNotes(turn: string, trigger: Trigger, kind: Kind, t: SubTurn)
    ensures GraceShape(Notes(Grace(turn, trigger, kind, t)), trigger, kind)
  {
    hide Notes, FinishFinalize, Finish;
    match t.provider
    case OpenFails(e) => FinishFinalizeNotes(turn, ProviderError, trigger, NotOpened(e));
    case StartFails(e) => FinishFinalizeNotes(turn, ProviderError, trigger, NotOpened(e));
    case Streams(events) =>
      ForwardsAreSilent(events);
      NotesConcat(Forwards(events), SettleGrace(turn, trigger, kind, t, events));
      FinishFinalizeNotes(turn, FinalizeTimeout, trigger, FinalizeTimedOut);
      FinishFinalizeNotes(turn, ProviderError, trigger, FinalizationFailed);
      FinishNotes(turn, kind, true, trigger, None);
      NotesConcat([Emit(turn, TurnFinalized(trigger))], Finish(turn, kind, true, trigger, None));
      NotesOfOne(Emit(turn, TurnFinalized(trigger)));
  }

  lemma FinalizeNotes(turn: string, trigger: Trigger, kind: Kind, t: SubTurn)
    ensures var ns := Notes(Finalize(turn, trigger, kind, t));
            |ns| == 3 && ns[0] == TurnFinalizing(trigger) && GraceShape(ns[1..], trigger, kind)
  {
    hide Notes, Grace;
    var a, b := Enter(Finalizing, turn), Emit(turn, TurnFinalizing(trigger));
    NotesConcat([a, b], Grace(turn, trigger, kind, t));
    NotesOfTwo(a, b);
    NotesOfOne(a);
    NotesOfOne(b);
    GraceNotes(turn, trigger, kind, t);
    assert Notes(Finalize(turn, trigger, kind, t))[1..] == Notes(Grace(turn, trigger, kind, t));
  }

  lemma SettleNotes(cfg: Config, o: Oracle, events: seq<ProviderEvent>)
    ensures WorkShape(Notes(Settle(cfg, o, events)))
  {
    hide Notes, Finalize, Finish;
    if cfg.finalize && o.work.deadline && !o.work.callerGone {
      FinalizeNotes(o.turn, SoftDeadline, RuntimeTimeout, o.grace);
      var rest := Finalize(o.turn, SoftDeadline, RuntimeTimeout, o.grace);
      NotesConcat([Emit(o.turn, TurnSoftDeadline)], rest);
      NotesOfOne(Emit(o.turn, TurnSoftDeadline));
      assert Notes(Settle(cfg, o, events))[2..] == Notes(rest)[1..];
    } else if cfg.finalize && o.work.callerGone {
      FinalizeNotes(o.turn, GracefulStop, Canceled, o.grace);
    } else {
      FinishNotes(o.turn, ProviderError, false, NoTrigger, Some(Truncated));
      FinishNotes(o.turn, Completed, false, NoTrigger, None);
      match Terminal(events)
      case Some(Some(e)) =>
        FinishNotes(o.turn, if e.TurnCanceled? then Canceled else ProviderError, false, NoTrigger, Some(Provider(e)));
      case _ =>
    }
  }

  lemma WorkNotes(cfg: Config, o: Oracle)
    ensures WorkShape(Notes(Work(cfg, o)))
  {
    hide Notes, Settle, Finish;
    match o.work.provider
    case OpenFails(e) => FinishNotes(o.turn, ProviderError, false, NoTrigger, Some(NotOpened(e)));
    case StartFails(e) => FinishNotes(o.turn, ProviderError, false, NoTrigger, Some(NotOpened(e)));
    case Streams(events) =>
      ForwardsAreSilent(events);
      NotesConcat(Forwards(events), Settle(cfg, o, events));
      SettleNotes(cfg, o, events);
      assert Notes(Work(cfg, o)) == Notes(Settle(cfg, o, events));
  }

  lemma NotesOfFive(a: Effect, b: Effect, c: Effect, d: Effect, e: Effect)
    ensures Notes([a, b, c, d, e]) == Notes([a]) + Notes([b]) + Notes([c]) + Notes([d]) + Notes([e])
  {
    NotesConcat([a, b, c], [d, e]);
    NotesOfThree(a, b, c);
    NotesOfTwo(d, e);
    assert [a, b, c] + [d, e] == [a, b, c, d, e];
  }

  lemma InitNotes(cfg: Config, o: Oracle)
    ensures Notes(Initialize(cfg, o)) ==
            if InitSucceeds(o.init) then [SessionInitializing, SessionInitialized]
            else [SessionInitializing, SessionInitFailed, TurnOutcome(InitializationFailure, NoTrigger)]
  {
    hide Notes, InitSucceeds;
    var a, b := Enter(Initializing, o.initTurn), Emit(o.initTurn, SessionInitializing);
    NotesOfOne(a);
    NotesOfOne(b);
    if InitSucceeds(o.init) {
      var c, d, e := MarkInitialized, Enter(Idle, ""), Emit(o.initTurn, SessionInitialized);
      NotesOfFive(a, b, c, d, e);
      NotesOfOne(c);
      NotesOfOne(d);
      NotesOfOne(e);
      assert Initialize(cfg, o) == [a, b, c, d, e];
    } else {
      var c, d := Enter(Idle, ""), Emit(o.initTurn, SessionInitFailed);
      var e := Conclude(Outcome(o.initTurn, InitializationFailure, false, NoTrigger));
      var f := Emit(o.initTurn, TurnOutcome(InitializationFailure, NoTrigger));
      var g := if cfg.degraded then MarkDegraded else Done(Some(InitializationFailed));
      NotesOfFive(a, b, c, d, e);
      NotesOfTwo(f, g);
      NotesConcat([a, b, c, d, e], [f, g]);
      NotesOfOne(c);
      NotesOfOne(d);
      NotesOfOne(e);
      NotesOfOne(f);
      NotesOfOne(g);
      assert Initialize(cfg, o) == [a, b, c, d, e] + [f, g];
    }
  }

  lemma BusinessNotes(cfg: Config, o: Oracle)
    ensures Notes(Business(cfg, o)) == [TurnRunning] + Notes(Work(cfg, o))
  {
    hide Notes, Work;
    var a, b := Enter(Running, o.turn), Emit(o.turn, TurnRunning);
    NotesConcat([a, b], Work(cfg, o));
    NotesOfTwo(a, b);
    NotesOfOne(a);
    NotesOfOne(b);
  }

  /** The lifecycle events of every turn follow one grammar: the initialization
      part if one is due; then, unless that failed closed, the announcement of the
      business turn and one of its three endings. */
  lemma TurnFollowsTheGrammar(cfg: Config, needsInit: bool, o: Oracle) returns (init: seq<Note>, work: seq<Note>)
    ensures Notes(Turn(cfg, needsInit, o)) == init + if Proceeds(cfg, needsInit, o) then [TurnRunning] + work else []
    ensures if cfg.initialize && needsInit then InitShape(init) else init == []
    ensures Proceeds(cfg, needsInit, o) ==> WorkShape(work)
    ensures !Proceeds(cfg, needsInit, o) ==> !cfg.degraded && |init| == 3
  {
    var first := if cfg.initialize && needsInit then Initialize(cfg, o) else [];
    var second := if Proceeds(cfg, needsInit, o) then Business(cfg, o) else [];
    NotesConcat(first, second);
    InitNotes(cfg, o);
    BusinessNotes(cfg, o);
    WorkNotes(cfg, o);
    init, work := Notes(first), Notes(Work(cfg, o));
    assert Notes([]) == [];
    hide Notes, Work, Business, Initialize, WorkShape;
  }

  // ----- What "completed" means -----

  const COMPLETED := TurnOutcome(Completed, NoTrigger)

  lemma GraceNeverCompletes(ns: seq<Note>, trigger: Trigger, kind: Kind)
    requires GraceShape(ns, trigger, kind) && kind != Completed
    ensures COMPLETED !in ns
  {
  }

  lemma SettleCompleted(cfg: Config, o: Oracle, events: seq<ProviderEvent>)
    ensures COMPLETED in Notes(Settle(cfg, o, events)) <==>
            !(cfg.finalize && (o.work.deadline || o.work.callerGone)) && Terminal(events) == Some(None)
  {
    hide Notes, Finalize, Finish, GraceShape;
    if cfg.finalize && (o.work.deadline || o.work.callerGone) {
      var trigger := if o.work.callerGone then GracefulStop else SoftDeadline;
      var kind := if o.work.callerGone then Canceled else RuntimeTimeout;
      var rest := Finalize(o.turn, trigger, kind, o.grace);
      FinalizeNotes(o.turn, trigger, kind, o.grace);
      GraceNeverCompletes(Notes(rest)[1..], trigger, kind);
      assert Notes(rest) == [Notes(rest)[0]] + Notes(rest)[1..];
      NotesConcat([Emit(o.turn, TurnSoftDeadline)], rest);
      NotesOfOne(Emit(o.turn, TurnSoftDeadline));
    } else {
      FinishNotes(o.turn, ProviderError, false, NoTrigger, Some(Truncated));
      FinishNotes(o.turn, Completed, false, NoTrigger, None);
      match Terminal(events)
      case Some(Some(e)) =>
        FinishNotes(o.turn, if e.TurnCanceled? then Canceled else ProviderError, false, NoTrigger, Some(Provider(e)));
      case _ =>
    }
  }

  lemma WorkCompleted(cfg: Config, o: Oracle)
    ensures COMPLETED in Notes(Work(cfg, o)) <==>
            CleanEnd(o.work.provider) && !(cfg.finalize && (o.work.deadline || o.work.callerGone))
  {
    hide Notes, Settle, Finish;
    match o.work.provider
    case OpenFails(e) => FinishNotes(o.turn, ProviderError, false, NoTrigger, Some(NotOpened(e)));
    case StartFails(e) => FinishNotes(o.turn, ProviderError, false, NoTrigger, Some(NotOpened(e)));
    case Streams(events) =>
      ForwardsAreSilent(events);
      NotesConcat(Forwards(events), Settle(cfg, o, events));
      SettleCompleted(cfg, o, events);
      assert Notes(Work(cfg, o)) == Notes(Settle(cfg, o, events));
  }

  /** A turn is recorded as completed exactly when the business turn was reached,
      its stream delivered a terminal event without an error as its last one, and,
      with finalization on, neither the work deadline nor the caller's cancellation
      had come. */
  lemma CompletedIff(cfg: Config, needsInit: bool, o: Oracle)
    ensures COMPLETED in Notes(Turn(cfg, needsInit, o)) <==>
            && Proceeds(cfg, needsInit, o) && CleanEnd(o.work.provider)
            && (cfg.finalize ==> !o.work.deadline && !o.work.callerGone)
  {
    var first := if cfg.initialize && needsInit then Initialize(cfg, o) else [];
    var second := if Proceeds(cfg, needsInit, o) then Business(cfg, o) else [];
    NotesConcat(first, second);
    InitNotes(cfg, o);
    BusinessNotes(cfg, o);
    WorkCompleted(cfg, o);
    assert Notes([]) == [];
    hide Notes, Work, Business, Initialize, WorkShape, CleanEnd;
    assert COMPLETED !in Notes(first);
  }

  // ----- How a turn ends, and why -----

  /** The terminal event that counts is the last one of the stream. */
  lemma {:induction false} TerminalIsTheLast(events: seq<ProviderEvent>)
    ensures Terminal(events).None? <==> forall i :: 0 <= i < |events| ==> !events[i].TurnDone?
    ensures Terminal(events).Some? ==> exists i :: LastDone(events, i) && events[i].err == Terminal(events).value
  {
    if events != [] {
      var n := |events| - 1;
      TerminalIsTheLast(events[..n]);
      if events[n].TurnDone? {
        assert LastDone(events, n);
      } else if Terminal(events).Some? {
        var i :| LastDone(events[..n], i) && events[..n][i].err == Terminal(events).value;
        assert LastDone(events, i);
      }
    }
  }

  predicate LastDone(events: seq<ProviderEvent>, i: int) {
    0 <= i < |events| && events[i].TurnDone? && forall j :: i < j < |events| ==> !events[j].TurnDone?
  }

  /** The stream of the business turn ran, and with finalization on its deadline or its
      caller was gone when it closed. */
  predicate Finalizes(cfg: Config, o: Oracle) {
    cfg.finalize && o.work.provider.Streams? && (o.work.deadline || o.work.callerGone)
  }

  /** The outcome and the error of a turn that is settled by what the provider said. */
  predicate ProviderVerdict(p: Provider, outcome: Outcome, err: Option<Failure>) {
    && outcome.trigger == NoTrigger && !outcome.finalized
    && match p
       case OpenFails(e) => outcome.kind == ProviderError && err == Some(NotOpened(e))
       case StartFails(e) => outcome.kind == ProviderError && err == Some(NotOpened(e))
       case Streams(events) =>
         match Terminal(events)
         case None => outcome.kind == ProviderError && err == Some(Truncated)
         case Some(None) => outcome.kind == Completed && err == None
         case Some(Some(TurnCanceled)) => outcome.kind == Canceled && err == Some(Provider(TurnCanceled))
         case Some(Some(OtherErr(text))) => outcome.kind == ProviderError && err == Some(Provider(OtherErr(text)))
  }

  /** And of one that is settled by its finalize turn. */
  predicate GraceVerdict(gone: bool, grace: SubTurn, outcome: Outcome, err: Option<Failure>) {
    && outcome.trigger == (if gone then GracefulStop else SoftDeadline)
    && (outcome.finalized <==> CleanEnd(grace.provider) && !grace.deadline)
    && match grace.provider
       case OpenFails(e) => outcome.kind == ProviderError && err == Some(NotOpened(e))
       case StartFails(e) => outcome.kind == ProviderError && err == Some(NotOpened(e))
       case Streams(events) =>
         if grace.deadline then outcome.kind == FinalizeTimeout && err == Some(FinalizeTimedOut)
         else if Terminal(events) == Some(None) then
           outcome.kind == (if gone then Canceled else RuntimeTimeout) && err == None
         else outcome.kind == ProviderError && err == Some(FinalizationFailed)
  }

  predicate Verdict(cfg: Config, o: Oracle, outcome: Outcome, err: Option<Failure>) {
    && outcome.turn == o.turn
    && if Finalizes(cfg, o) then GraceVerdict(o.work.callerGone, o.grace, outcome, err)
       else ProviderVerdict(o.work.provider, outcome, err)
  }

  predicate Finalized(e: Effect) {
    e.Emit? && e.note.TurnFinalized?
  }

  /** The effects close with this outcome, recorded and announced, and this error, and
      there is no other outcome before; a finalization is announced iff the outcome
      says so. */
  predicate Closes(es: seq<Effect>, outcome: Outcome, err: Option<Failure>) {
    var n := |es| - 3;
    && n >= 0 && es[n] == Conclude(outcome)
    && es[n + 1] == Emit(outcome.turn, TurnOutcome(outcome.kind, outcome.trigger)) && es[n + 2] == Done(err)
    && (forall i :: 0 <= i < n ==> !es[i].Conclude?)
    && (outcome.finalized <==> exists i :: 0 <= i < n && Finalized(es[i]))
  }

  lemma ClosesAfter(a: seq<Effect>, b: seq<Effect>, outcome: Outcome, err: Option<Failure>)
    requires Closes(b, outcome, err) && forall e :: e in a ==> !e.Conclude? && !Finalized(e)
    ensures Closes(a + b, outcome, err)
  {
    var es, n := a + b, |b| - 3;
    forall i | 0 <= i < |a| ensures !es[i].Conclude? && !Finalized(es[i]) { assert a[i] in a; }
    if outcome.finalized {
      var i :| 0 <= i < n && Finalized(b[i]);
      assert Finalized(es[|a| + i]);
    }
  }

  lemma FinishCloses(outcome: Outcome, err: Option<Failure>)
    requires !outcome.finalized
    ensures Closes(Finish(outcome.turn, outcome.kind, false, outcome.trigger, err), outcome, err)
  {
  }

  lemma FinishFinalizeCloses(turn: string, kind: Kind, trigger: Trigger, err: Failure)
    ensures Closes(FinishFinalize(turn, kind, trigger, err), Outcome(turn, kind, false, trigger), Some(err))
  {
    FinishCloses(Outcome(turn, kind, false, trigger), Some(err));
    ClosesAfter([Emit(turn, TurnFinalizationFailed(trigger, kind))], Finish(turn, kind, false, trigger, Some(err)),
                Outcome(turn, kind, false, trigger), Some(err));
  }

  lemma FinalizedCloses(turn: string, kind: Kind, trigger: Trigger)
    ensures Closes([Emit(turn, TurnFinalized(trigger))] + Finish(turn, kind, true, trigger, None),
                   Outcome(turn, kind, true, trigger), None)
  {
    var es := [Emit(turn, TurnFinalized(trigger))] + Finish(turn, kind, true, trigger, None);
    assert Finalized(es[0]);
  }

  lemma GraceCloses(turn: string, gone: bool, t: SubTurn) returns (outcome: Outcome, err: Option<Failure>)
    ensures var trigger, kind := if gone then GracefulStop else SoftDeadline, if gone then Canceled else RuntimeTimeout;
            Closes(Grace(turn, trigger, kind, t), outcome, err)
    ensures outcome.turn == turn && GraceVerdict(gone, t, outcome, err)
  {
    hide Closes, FinishFinalize, Finish, Forwards;
    var trigger, kind := if gone then GracefulStop else SoftDeadline, if gone then Canceled else RuntimeTimeout;
    if !t.provider.Streams? {
      FinishFinalizeCloses(turn, ProviderError, trigger, NotOpened(t.provider.err));
      outcome, err := Outcome(turn, ProviderError, false, trigger), Some(NotOpened(t.provider.err));
    } else {
      var events := t.provider.events;
      if t.deadline {
        FinishFinalizeCloses(turn, FinalizeTimeout, trigger, FinalizeTimedOut);
        outcome, err := Outcome(turn, FinalizeTimeout, false, trigger), Some(FinalizeTimedOut);
      } else if Terminal(events) == Some(None) {
        FinalizedCloses(turn, kind, trigger);
        outcome, err := Outcome(turn, kind, true, trigger), None;
      } else {
        FinishFinalizeCloses(turn, ProviderError, trigger, FinalizationFailed);
        outcome, err := Outcome(turn, ProviderError, false, trigger), Some(FinalizationFailed);
      }
      ForwardsOnly(events);
      ClosesAfter(Forwards(events), SettleGrace(turn, trigger, kind, t, events), outcome, err);
    }
  }

  lemma FinalizeCloses(turn: string, gone: bool, t: SubTurn) returns (outcome: Outcome, err: Option<Failure>)
    ensures var trigger, kind := if gone then GracefulStop else SoftDeadline, if gone then Canceled else RuntimeTimeout;
            Closes(Finalize(turn, trigger, kind, t), outcome, err)
    ensures outcome.turn == turn && GraceVerdict(gone, t, outcome, err)
  {
    hide Closes, Grace;
    var trigger, kind := if gone then GracefulStop else SoftDeadline, if gone then Canceled else RuntimeTimeout;
    outcome, err := GraceCloses(turn, gone, t);
    ClosesAfter([Enter(Finalizing, turn), Emit(turn, TurnFinalizing(trigger))], Grace(turn, trigger, kind, t), outcome,
                err);
  }

  lemma SettleCloses(cfg: Config, o: Oracle, events: seq<ProviderEvent>)
      returns (outcome: Outcome, err: Option<Failure>)
    requires o.work.provider == Streams(events)
    ensures Closes(Settle(cfg, o, events), outcome, err) && Verdict(cfg, o, outcome, err)
  {
    hide Closes, Finalize, Finish, GraceVerdict;
    if Finalizes(cfg, o) {
      outcome, err := FinalizeCloses(o.turn, o.work.callerGone, o.grace);
      if !o.work.callerGone {
        ClosesAfter([Emit(o.turn, TurnSoftDeadline)], Finalize(o.turn, SoftDeadline, RuntimeTimeout, o.grace), outcome,
                    err);
      }
    } else {
      match Terminal(events) {
        case None => outcome, err := Outcome(o.turn, ProviderError, false, NoTrigger), Some(Truncated);
        case Some(None) => outcome, err := Outcome(o.turn, Completed, false, NoTrigger), None;
        case Some(Some(e)) =>
          var kind := if e.TurnCanceled? then Canceled else ProviderError;
          outcome, err := Outcome(o.turn, kind, false, NoTrigger), Some(Provider(e));
      }
      FinishCloses(outcome, err);
    }
  }

  lemma WorkCloses(cfg: Config, o: Oracle) returns (outcome: Outcome, err: Option<Failure>)
    ensures Closes(Work(cfg, o), outcome, err) && Verdict(cfg, o, outcome, err)
  {
    hide Closes, Settle, Finish, Forwards;
    if o.work.provider.Streams? {
      var events := o.work.provider.events;
      outcome, err := SettleCloses(cfg, o, events);
      ForwardsOnly(events);
      ClosesAfter(Forwards(events), Settle(cfg, o, events), outcome, err);
    } else {
      outcome, err := Outcome(o.turn, ProviderError, false, NoTrigger), Some(NotOpened(o.work.provider.err));
      FinishCloses(outcome, err);
    }
  }

  /** Every turn that is reached records one outcome, announces that same outcome, and
      ends its stream right after it. Which outcome and which error, the verdict tells
      from what provider, deadlines and caller did. The stream ends without an error
      exactly when the turn completed or was finalized. */
  lemma BusinessCloses(cfg: Config, o: Oracle) returns (outcome: Outcome, err: Option<Failure>)
    ensures Closes(Business(cfg, o), outcome, err) && Verdict(cfg, o, outcome, err)
    ensures err == None <==> outcome.kind == Completed || outcome.finalized
  {
    hide Closes, Work;
    outcome, err := WorkCloses(cfg, o);
    ClosesAfter([Enter(Running, o.turn), Emit(o.turn, TurnRunning)], Work(cfg, o), outcome, err);
  }

  /** An initialization that is due and fails, also by running out of its time or by its
      caller leaving, records and announces that under its own turn, and then the stream
      ends with an error or, in degraded mode, goes on to the business turn; one that
      succeeds records nothing. */
  lemma FailedInitialization(cfg: Config, o: Oracle)
    ensures var es, lost := Initialize(cfg, o), Outcome(o.initTurn, InitializationFailure, false, NoTrigger);
            if CleanEnd(o.init.provider) && !o.init.deadline && !o.init.callerGone
            then NoDone(es) && forall e :: e in es ==> !e.Conclude?
            else
              && |es| == 7 && es[4] == Conclude(lost)
              && es[5] == Emit(o.initTurn, TurnOutcome(InitializationFailure, NoTrigger))
              && es[6] == if cfg.degraded then MarkDegraded else Done(Some(InitializationFailed))
  {
    hide CleanEnd;
  }

  /** On the whole turn: its stream ends without an error exactly when the turn was
      announced as completed or a finalization of it was. */
  lemma ErrorFreeIff(cfg: Config, needsInit: bool, o: Oracle)
    ensures var es := Turn(cfg, needsInit, o);
            && es != [] && es[|es| - 1].Done?
            && (es[|es| - 1].err == None <==> exists e :: e in es && Succeeded(e))
  {
    var init, es := if cfg.initialize && needsInit then Initialize(cfg, o) else [], Turn(cfg, needsInit, o);
    assert forall e :: e in init ==> !Succeeded(e);
    if Proceeds(cfg, needsInit, o) {
      var outcome, err := BusinessCloses(cfg, o);
      var b := Business(cfg, o);
      assert es == init + b && es[|es| - 1] == b[|b| - 1];
      ClosedSuccess(b, outcome, err, cfg, o);
      assert (exists e :: e in es && Succeeded(e)) <==> (exists e :: e in b && Succeeded(e));
    } else {
      assert es == init;
    }
    hide Business, Initialize, Closes;
  }

  predicate Succeeded(e: Effect) {
    e.Emit? && (e.note.TurnFinalized? || e.note == COMPLETED)
  }

  lemma ClosedSuccess(b: seq<Effect>, outcome: Outcome, err: Option<Failure>, cfg: Config, o: Oracle)
    requires b == Business(cfg, o) && Closes(b, outcome, err) && Verdict(cfg, o, outcome, err)
    ensures (outcome.kind == Completed || outcome.finalized) <==> exists e :: e in b && Succeeded(e)
  {
    BusinessNotes(cfg, o);
    WorkCompleted(cfg, o);
    hide Business, Work;
    var n := |b| - 3;
    CompletedIsNoted(b);
    assert b[n + 1] in b;
    if outcome.finalized {
      var i :| 0 <= i < n && Finalized(b[i]);
      assert b[i] in b && Succeeded(b[i]);
    }
    if outcome.kind == Completed { assert Succeeded(b[n + 1]); }
  }

  lemma {:induction false} CompletedIsNoted(es: seq<Effect>)
    ensures COMPLETED in Notes(es) <==> exists e :: e in es && e.Emit? && e.note == COMPLETED
  {
    if es != [] {
      var n := |es| - 1;
      CompletedIsNoted(es[..n]);
      assert es == es[..n] + [es[n]];
    }
  }

  // ----- What the provider said -----

  /** What a stream says, its terminal events left out. */
  function Said(events: seq<ProviderEvent>): seq<ProviderEvent> {
    if events == [] then []
    else
      var last := events[|events| - 1];
      Said(events[..|events| - 1]) + if last.TurnDone? then [] else [last]
  }

  function Relayed(es: seq<Effect>): seq<ProviderEvent> {
    if es == [] then []
    else Relayed(es[..|es| - 1]) + if es[|es| - 1].Forward? then [es[|es| - 1].event] else []
  }

  lemma {:induction false} RelayedConcat(a: seq<Effect>, b: seq<Effect>)
    ensures Relayed(a + b) == Relayed(a) + Relayed(b)
  {
    if b == [] {
      assert a + b == a;
    } else {
      var n := |b| - 1;
      assert (a + b)[..|a + b| - 1] == a + b[..n];
      RelayedConcat(a, b[..n]);
    }
  }

  lemma RelayedOne(e: Effect)
    ensures Relayed([e]) == if e.Forward? then [e.event] else []
  {
    assert [e][..0] == [];
  }

  lemma {:induction false} ForwardsRelay(events: seq<ProviderEvent>)
    ensures Relayed(Forwards(events)) == Said(events)
  {
    if events != [] {
      var n := |events| - 1;
      ForwardsRelay(events[..n]);
      if events[n].TurnDone? {
        assert Forwards(events) == Forwards(events[..n]);
      } else {
        RelayedConcat(Forwards(events[..n]), [Forward(events[n])]);
        RelayedOne(Forward(events[n]));
      }
    }
  }

  lemma {:induction false} SilentRelays(es: seq<Effect>)
    requires forall e :: e in es ==> !e.Forward?
    ensures Relayed(es) == []
  {
    if es != [] {
      assert es[|es| - 1] in es;
      SilentRelays(es[..|es| - 1]);
    }
  }

  function SaidBy(p: Provider): seq<ProviderEvent> {
    if p.Streams? then Said(p.events) else []
  }

  lemma GraceRelays(turn: string, trigger: Trigger, kind: Kind, t: SubTurn)
    ensures Relayed(Finalize(turn, trigger, kind, t)) == SaidBy(t.provider)
  {
    hide Relayed, Said, Forwards;
    var head := [Enter(Finalizing, turn), Emit(turn, TurnFinalizing(trigger))];
    SilentRelays(head);
    RelayedConcat(head, Grace(turn, trigger, kind, t));
    if t.provider.Streams? {
      var events := t.provider.events;
      ForwardsRelay(events);
      SilentRelays(SettleGrace(turn, trigger, kind, t, events));
      RelayedConcat(Forwards(events), SettleGrace(turn, trigger, kind, t, events));
    } else {
      SilentRelays(Grace(turn, trigger, kind, t));
    }
  }

  lemma SettleRelays(cfg: Config, o: Oracle, events: seq<ProviderEvent>)
    requires o.work.provider == Streams(events)
    ensures Relayed(Settle(cfg, o, events)) == if Finalizes(cfg, o) then SaidBy(o.grace.provider) else []
  {
    hide Relayed, SaidBy, Finalize;
    if Finalizes(cfg, o) {
      GraceRelays(o.turn, SoftDeadline, RuntimeTimeout, o.grace);
      GraceRelays(o.turn, GracefulStop, Canceled, o.grace);
      SilentRelays([Emit(o.turn, TurnSoftDeadline)]);
      RelayedConcat([Emit(o.turn, TurnSoftDeadline)], Finalize(o.turn, SoftDeadline, RuntimeTimeout, o.grace));
    } else {
      SilentRelays(Settle(cfg, o, events));
    }
  }

  /** The caller is sent everything the provider said in the business turn and then in
      the finalize turn if there is one, in that order, and nothing else of it. */
  lemma BusinessRelays(cfg: Config, o: Oracle)
    ensures Relayed(Business(cfg, o)) ==
            SaidBy(o.work.provider) + if Finalizes(cfg, o) then SaidBy(o.grace.provider) else []
  {
    hide Relayed, Settle, Said, Forwards;
    var head := [Enter(Running, o.turn), Emit(o.turn, TurnRunning)];
    SilentRelays(head);
    RelayedConcat(head, Work(cfg, o));
    if o.work.provider.Streams? {
      var events := o.work.provider.events;
      ForwardsRelay(events);
      SettleRelays(cfg, o, events);
      RelayedConcat(Forwards(events), Settle(cfg, o, events));
    } else {
      SilentRelays(Work(cfg, o));
    }
  }

  // ----- The stream and the store -----

  /** What the caller reads from the stream. */
  datatype Out = Lifecycle(turn: string, note: Note) | Relay(event: ProviderEvent) | End(err: Option<Failure>)

  function Shown(e: Effect): seq<Out> {
    match e
    case Emit(turn, note) => [Lifecycle(turn, note)]
    case Forward(event) => [Relay(event)]
    case Done(err) => [End(err)]
    case _ => []
  }

  function Streamed(es: seq<Effect>): seq<Out> {
    if es == [] then [] else Streamed(es[..|es| - 1]) + Shown(es[|es| - 1])
  }

  function Perform(st: Store, c: Ctx, version: string, e: Effect): Store {
    match e
    case Enter(phase, turn) => st.SetPhase(c, phase, turn)
    case Emit(turn, note) => st.Append(c, turn, note)
    case MarkInitialized => st.MarkInitialized(c, version)
    case MarkDegraded => st.MarkInitDegraded(c, version)
    case Conclude(outcome) => st.RecordOutcome(c, outcome)
    case _ => st
  }

  function Performed(st: Store, c: Ctx, version: string, es: seq<Effect>): Store {
    if es == [] then st else Perform(Performed(st, c, version, es[..|es| - 1]), c, version, es[|es| - 1])
  }

  lemma {:induction false} NoDoneNoEnd(es: seq<Effect>)
    requires NoDone(es)
    ensures forall x :: x in Streamed(es) ==> !x.End?
  {
    if es != [] {
      assert es[|es| - 1] in es;
      NoDoneNoEnd(es[..|es| - 1]);
    }
  }

  lemma OneDoneOneEnd(es: seq<Effect>)
    requires OnlyLastIsDone(es)
    ensures var out := Streamed(es);
            out != [] && out[|out| - 1].End? && forall i :: 0 <= i < |out| - 1 ==> !out[i].End?
  {
    var front := es[..|es| - 1];
    assert NoDone(front);
    NoDoneNoEnd(front);
    var shown := Streamed(front);
    assert Streamed(es) == shown + Shown(es[|es| - 1]);
    hide Streamed;
    assert forall i :: 0 <= i < |shown| ==> shown[i] in shown;
  }

  /** The same on the stream itself: exactly one end, in last place, whatever the
      provider, the deadlines and the caller do. */
  lemma StreamEndsOnce(cfg: Config, needsInit: bool, o: Oracle)
    ensures var out := Streamed(Turn(cfg, needsInit, o));
            out != [] && out[|out| - 1].End? && forall i :: 0 <= i < |out| - 1 ==> !out[i].End?
  {
    TurnEndsOnce(cfg, needsInit, o);
    hide Turn;
    OneDoneOneEnd(Turn(cfg, needsInit, o));
  }

  /** Afterwards the store has the outcome, and the session is idle. */
  lemma StoreHasTheOutcome(
      st: Store, c: Ctx, version: string, es: seq<Effect>, outcome: Outcome, err: Option<Failure>)
    requires Closes(es, outcome, err)
    ensures var rec := Performed(st, c, version, es).Get(c);
            rec.last == Some(outcome) && rec.phase == Idle && rec.turn == ""
  {
    var n := |es| - 3;
    assert es[..n + 2][..n + 1] == es[..n + 1] && es[..n + 1][..n] == es[..n];
    var st1 := Performed(st, c, version, es[..n + 1]);
    assert st1 == Perform(Performed(st, c, version, es[..n]), c, version, es[n]);
    var st2 := Performed(st, c, version, es[..n + 2]);
    assert st2 == Perform(st1, c, version, es[n + 1]);
    assert Performed(st, c, version, es) == st2;
    hide Performed, Closes;
  }

  // ----- The session object -----

  lemma DrainOneMore(events: seq<ProviderEvent>, i: nat)
    requires i < |events|
    ensures Terminal(events[..i + 1]) == if events[i].TurnDone? then Some(events[i].err) else Terminal(events[..i])
    ensures Forwards(events[..i + 1]) == Forwards(events[..i]) + if events[i].TurnDone? then []
            else [Forward(events[i])]
  {
    assert events[..i + 1][..i] == events[..i];
  }

  /** `trace` is what this stream has done so far; out and store are its two
      images. */
  class LifecycleSession {
    const cfg: Config
    const c: Ctx
    const store: LifecycleStore
    var out: seq<Out>
    ghost var start: Store
    ghost var trace: seq<Effect>

    ghost predicate Valid()
      reads this, store
    {
      out == Streamed(trace) && store.View() == Performed(start, c, cfg.version, trace)
    }

    constructor (cfg: Config, c: Ctx, store: LifecycleStore)
      ensures Valid() && this.cfg == cfg && this.c == c && this.store == store
      ensures trace == [] && out == [] && start == store.View()
    {
      this.cfg, this.c, this.store, out := cfg, c, store, [];
      start, trace := store.View(), [];
    }

    method SetPhase(phase: Phase, turn: string)
      requires Valid()
      modifies this`trace, store
      ensures Valid() && trace == old(trace) + [Enter(phase, turn)]
    {
      hide Streamed, Performed;
      Snoc(Enter(phase, turn));
      store.SetPhase(c, phase, turn);
      trace := trace + [Enter(phase, turn)];
    }

    method Announce(turn: string, note: Note)
      requires Valid()
      modifies this`trace, this`out, store
      ensures Valid() && trace == old(trace) + [Emit(turn, note)]
    {
      hide Streamed, Performed;
      Snoc(Emit(turn, note));
      store.Append(c, turn, note);
      out := out + [Lifecycle(turn, note)];
      trace := trace + [Emit(turn, note)];
    }

    method MarkInit()
      requires Valid()
      modifies this`trace, store
      ensures Valid() && trace == old(trace) + [MarkInitialized]
    {
      hide Streamed, Performed;
      Snoc(MarkInitialized);
      store.MarkInitialized(c, cfg.version);
      trace := trace + [MarkInitialized];
    }

    method MarkInitDegraded()
      requires Valid()
      modifies this`trace, store
      ensures Valid() && trace == old(trace) + [MarkDegraded]
    {
      hide Streamed, Performed;
      Snoc(MarkDegraded);
      store.MarkInitDegraded(c, cfg.version);
      trace := trace + [MarkDegraded];
    }

    method RecordOutcome(o: Outcome)
      requires Valid()
      modifies this`trace, store
      ensures Valid() && trace == old(trace) + [Conclude(o)]
    {
      hide Streamed, Performed;
      Snoc(Conclude(o));
      store.RecordOutcome(c, o);
      trace := trace + [Conclude(o)];
    }

    method Send(e: Effect, x: Out)
      requires Valid() && (e.Forward? || e.Done?) && Shown(e) == [x]
      modifies this`trace, this`out
      ensures Valid() && trace == old(trace) + [e]
    {
      hide Streamed, Performed;
      Snoc(e);
      out := out + [x];
      trace := trace + [e];
    }

    lemma Snoc(e: Effect)
      ensures Streamed(trace + [e]) == if Shown(e) == [] then Streamed(trace) else Streamed(trace) + Shown(e)
      ensures Performed(start, c, cfg.version, trace + [e]) ==
              Perform(Performed(start, c, cfg.version, trace), c, cfg.version, e)
    {
      assert (trace + [e])[..|trace|] == trace;
    }

    /** Reads a provider's stream to its end. */
    method Drain(events: seq<ProviderEvent>, forward: bool) returns (terminal: Option<Option<ProviderErr>>)
      requires Valid()
      modifies this`trace, this`out
      ensures Valid() && trace == old(trace) + (if forward then Forwards(events) else [])
      ensures terminal == Terminal(events)
    {
      hide Valid, Streamed, Performed;
      terminal := None;
      ghost var sent: seq<Effect> := [];
      var i := 0;
      while i < |events|
        invariant i <= |events| && Valid()
        invariant trace == old(trace) + sent && sent == if forward then Forwards(events[..i]) else []
        invariant terminal == Terminal(events[..i])
      {
        DrainOneMore(events, i);
        if events[i].TurnDone? {
          terminal := Some(events[i].err);
        } else if forward {
          Send(Forward(events[i]), Relay(events[i]));
          sent := sent + [Forward(events[i])];
        }
        i := i + 1;
      }
      assert events[..i] == events;
    }

    method FinishTurn(o: Outcome, err: Option<Failure>)
      requires Valid()
      modifies this`trace, this`out, store
      ensures Valid() && trace == old(trace) + Finish(o.turn, o.kind, o.finalized, o.trigger, err)
    {
      hide Valid, Streamed, Performed;
      RecordOutcome(o);
      Announce(o.turn, TurnOutcome(o.kind, o.trigger));
      Send(Done(err), End(err));
    }

    method FinishFinalization(turn: string, kind: Kind, trigger: Trigger, err: Failure)
      requires Valid()
      modifies this`trace, this`out, store
      ensures Valid() && trace == old(trace) + FinishFinalize(turn, kind, trigger, err)
    {
      hide Valid, Finish;
      Announce(turn, TurnFinalizationFailed(trigger, kind));
      FinishTurn(Outcome(turn, kind, false, trigger), Some(err));
    }

    method InitializationSucceeded(turn: string)
      requires Valid()
      modifies this`trace, this`out, store
      ensures Valid() && trace == old(trace) + [MarkInitialized, Enter(Idle, ""), Emit(turn, SessionInitialized)]
    {
      hide Valid;
      MarkInit();
      SetPhase(Idle, "");
      Announce(turn, SessionInitialized);
    }

    method InitializationLost(turn: string)
      requires Valid()
      modifies this`trace, this`out, store
      ensures Valid() && trace == old(trace) + InitFailure(cfg, turn)
    {
      hide Valid;
      SetPhase(Idle, "");
      Announce(turn, SessionInitFailed);
      RecordOutcome(Outcome(turn, InitializationFailure, false, NoTrigger));
      Announce(turn, TurnOutcome(InitializationFailure, NoTrigger));
      if cfg.degraded {
        MarkInitDegraded();
      } else {
        Send(Done(Some(InitializationFailed)), End(Some(InitializationFailed)));
      }
    }

    /** Whether the business turn may start. */
    method RunInitialize(o: Oracle) returns (proceed: bool)
      requires Valid()
      modifies this`trace, this`out, store
      ensures Valid() && trace == old(trace) + Initialize(cfg, o)
      ensures proceed == (InitSucceeds(o.init) || cfg.degraded)
    {
      hide Valid, InitFailure, Terminal;
      SetPhase(Initializing, o.initTurn);
      Announce(o.initTurn, SessionInitializing);
      assert trace == old(trace) + [Enter(Initializing, o.initTurn), Emit(o.initTurn, SessionInitializing)];
      var ok := false;
      if o.init.provider.Streams? {
        var terminal := Drain(o.init.provider.events, false);
        if o.init.deadline && !o.init.callerGone {
          ok := false;
        } else if o.init.callerGone {
          ok := false;
        } else {
          ok := terminal == Some(None);
        }
      }
      proceed := ok || cfg.degraded;
      if ok { InitializationSucceeded(o.initTurn); } else { InitializationLost(o.initTurn); }
    }

    method RunFinalize(turn: string, trigger: Trigger, kind: Kind, t: SubTurn)
      requires Valid()
      modifies this`trace, this`out, store
      ensures Valid() && trace == old(trace) + Finalize(turn, trigger, kind, t)
    {
      hide Valid, Forwards, Finish, FinishFinalize, Terminal, Grace;
      SetPhase(Finalizing, turn);
      Announce(turn, TurnFinalizing(trigger));
      RunGrace(turn, trigger, kind, t);
    }

    method RunGrace(turn: string, trigger: Trigger, kind: Kind, t: SubTurn)
      requires Valid()
      modifies this`trace, this`out, store
      ensures Valid() && trace == old(trace) + Grace(turn, trigger, kind, t)
    {
      hide Valid, Forwards, Finish, FinishFinalize, Terminal;
      if !t.provider.Streams? {
        FinishFinalization(turn, ProviderError, trigger, NotOpened(t.provider.err));
        return;
      }
      var terminal := Drain(t.provider.events, true);
      if t.deadline {
        FinishFinalization(turn, FinalizeTimeout, trigger, FinalizeTimedOut);
      } else if terminal == Some(None) {
        Announce(turn, TurnFinalized(trigger));
        FinishTurn(Outcome(turn, kind, true, trigger), None);
      } else {
        FinishFinalization(turn, ProviderError, trigger, FinalizationFailed);
      }
    }

    method SettleTurn(o: Oracle, ghost events: seq<ProviderEvent>, terminal: Option<Option<ProviderErr>>)
      requires Valid() && terminal == Terminal(events)
      modifies this`trace, this`out, store
      ensures Valid() && trace == old(trace) + Settle(cfg, o, events)
    {
      hide Valid, Finish, Finalize, Terminal;
      if cfg.finalize && o.work.deadline && !o.work.callerGone {
        Announce(o.turn, TurnSoftDeadline);
        RunFinalize(o.turn, SoftDeadline, RuntimeTimeout, o.grace);
      } else if cfg.finalize && o.work.callerGone {
        RunFinalize(o.turn, GracefulStop, Canceled, o.grace);
      } else if terminal == Some(None) {
        FinishTurn(Outcome(o.turn, Completed, false, NoTrigger), None);
      } else if terminal == None {
        FinishTurn(Outcome(o.turn, ProviderError, false, NoTrigger), Some(Truncated));
      } else {
        var e := terminal.value.value;
        FinishTurn(Outcome(o.turn, if e.TurnCanceled? then Canceled else ProviderError, false, NoTrigger),
          Some(Provider(e)));
      }
    }

    method RunWork(o: Oracle)
      requires Valid()
      modifies this`trace, this`out, store
      ensures Valid() && trace == old(trace) + Work(cfg, o)
    {
      hide Valid, Forwards, Settle, Terminal, Finish;
      if !o.work.provider.Streams? {
        FinishTurn(Outcome(o.turn, ProviderError, false, NoTrigger), Some(NotOpened(o.work.provider.err)));
      } else {
        var terminal := Drain(o.work.provider.events, true);
        SettleTurn(o, o.work.provider.events, terminal);
      }
    }

    method RunBusiness(o: Oracle)
      requires Valid()
      modifies this`trace, this`out, store
      ensures Valid() && trace == old(trace) + Business(cfg, o)
    {
      hide Valid, Work;
      SetPhase(Running, o.turn);
      Announce(o.turn, TurnRunning);
      RunWork(o);
    }

    /** The whole turn, on a stream that has written nothing yet. */
    method Run(o: Oracle)
      requires Valid() && trace == []
      modifies this`trace, this`out, this`start, store
      ensures Valid() && trace == Turn(cfg, old(store.View()).NeedsInit(c, cfg.version), o)
      ensures out == Streamed(trace)
      ensures start == if cfg.initialize then old(store.View()).Put(c, old(store.View()).Get(c)) else old(store.View())
    {
      var proceed := true;
      if cfg.initialize {
        var needs := store.NeedsInit(c, cfg.version);
        start := store.View();
        if needs { proceed := RunInitialize(o); }
      } else {
        start := store.View();
      }
      if proceed { RunBusiness(o); }
    }
  }
}
