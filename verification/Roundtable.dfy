/** A room in roundtable mode: one driver lets every participant speak once per
    round, in a fresh order, until the moderator sees consensus or the budget of
    rounds is used up. */
module Roundtables {
  import opened Options

  datatype Status = Waiting | Active | Stopped

  datatype Turn = Turn(speaker: string, failed: bool)

  datatype Table = Table(
    participants: seq<string>,
    moderator: string,
    budget: int,
    transcript: seq<Turn>,
    status: Status,
    speaking: string,
    running: bool,
    order: seq<string>,
    cursor: nat,
    round: nat,
    roundStart: nat)

  function NewTable(participants: seq<string>, moderator: string, budget: int): Table {
    Table(participants, moderator, budget, [], Waiting, "", false, [], 0, 0, 0)
  }

  /** A shuffle of the participants. */
  predicate Shuffled(t: Table, order: seq<string>) {
    multiset(order) == multiset(t.participants)
  }

  // ----- Critical sections -----

  /** A message reopens the discussion; whether it starts a driver. */
  function Said(t: Table, speaker: string, order: seq<string>): (Table, bool) {
    if t.status == Stopped then (t, false)
    else
      (t.(transcript := t.transcript + [Turn(speaker, false)], order := order, cursor := 0, round := 0,
          roundStart := |t.transcript| + 1, status := Active, running := true), !t.running)
  }

  function Halted(t: Table): Table {
    t.(status := Stopped)
  }

  /** Where a driver is: at the top of its loop, waiting for a participant, waiting
      for the moderator on a round, or past the moderator and about to decide. */
  datatype Control =
    | AtTop
    | Speaking(speaker: string)
    | Consolidating(round: nat)
    | Deciding(round: nat, consensus: bool)

  function Taken(t: Table): (Table, Option<Control>) {
    if t.status == Stopped then (t.(running := false), None)
    else if t.cursor < |t.order| then
      (t.(cursor := t.cursor + 1, speaking := t.order[t.cursor]), Some(Speaking(t.order[t.cursor])))
    else (t.(round := t.round + 1, speaking := t.moderator), Some(Consolidating(t.round + 1)))
  }

  function Replied(t: Table, speaker: string): Table {
    t.(speaking := "", transcript := t.transcript + [Turn(speaker, false)])
  }

  function Failed(t: Table, speaker: string): Table {
    t.(speaking := "", transcript := t.transcript + [Turn(speaker, true)], status := Waiting, running := false)
  }

  /** After the moderator: park, or open the next round. The status is not asked. */
  function Decided(t: Table, round: nat, consensus: bool, order: seq<string>): (Table, Option<Control>) {
    if consensus || round >= t.budget then (t.(status := Waiting, running := false), None)
    else (t.(order := order, cursor := 0, roundStart := |t.transcript|), Some(AtTop))
  }

  /** What the moderator's run comes to. A failed run and a blank reply have neither
      text nor verdict; any other reply has a text, and may see consensus. */
  datatype Answer = Nothing | Summary(consensus: bool)

  /** The moderator is back. With a text, the lock is let go once to save it, and
      the decision comes in a section of its own. */
  function Consolidated(t: Table, round: nat, answer: Answer, order: seq<string>): (Table, Option<Control>) {
    var q := t.(speaking := "");
    if t.status == Stopped then (q.(running := false), None)
    else if answer.Summary? then
      (q.(transcript := t.transcript + [Turn(t.moderator, false)]), Some(Deciding(round, answer.consensus)))
    else Decided(q, round, false, order)
  }

  /** A restored table parks: rounds are not kept, a stop is. */
  function Restored(t: Table, stopped: bool): Table {
    NewTable(t.participants, t.moderator, t.budget)
    .(transcript := t.transcript, status := if stopped then Stopped else Waiting)
  }

  // ----- The table with its drivers -----

  /** `runs` counts agent runs started since the last outside message; `stopLogged`
      says that a stop was ever recorded. */
  datatype World = World(table: Table, drivers: map<nat, Control>, spawned: nat, runs: nat, stopLogged: bool)

  function Start(participants: seq<string>, moderator: string, budget: int): World {
    World(NewTable(participants, moderator, budget), map[], 0, 0, false)
  }

  datatype Step =
    | Say(speaker: string, order: seq<string>)
    | Stop
    | Take(d: nat)
    | Reply(d: nat)
    | Fail(d: nat)
    | Consolidate(d: nat, answer: Answer, order: seq<string>)
    | Decide(d: nat, order: seq<string>)
    | Restart

  /** The driver goes on in `control`, or ends. */
  function Moved(w: World, d: nat, t: Table, control: Option<Control>): World {
    w.(table := t, drivers := if control.Some? then w.drivers[d := control.value] else w.drivers - {d})
  }

  function Apply(w: World, step: Step): World {
    var t := w.table;
    match step
    case Say(speaker, order) =>
      if t.status == Stopped || !Shuffled(t, order) then w
      else
        var (t', started) := Said(t, speaker, order);
        World(t', if started then w.drivers[w.spawned := AtTop] else w.drivers, w.spawned + 1, 0, w.stopLogged)
    case Stop => w.(table := Halted(t), stopLogged := true)
    case Take(d) =>
      if d !in w.drivers || !w.drivers[d].AtTop? then w
      else
        var (t', control) := Taken(t);
        Moved(w, d, t', control).(runs := if control.Some? then w.runs + 1 else w.runs)
    case Reply(d) =>
      if d !in w.drivers || !w.drivers[d].Speaking? then w
      else Moved(w, d, Replied(t, w.drivers[d].speaker), Some(AtTop))
    case Fail(d) =>
      if d !in w.drivers || !w.drivers[d].Speaking? then w
      else Moved(w, d, Failed(t, w.drivers[d].speaker), None)
    case Consolidate(d, answer, order) =>
      if d !in w.drivers || !w.drivers[d].Consolidating? || !Shuffled(t, order) then w
      else
        var (t', control) := Consolidated(t, w.drivers[d].round, answer, order);
        Moved(w, d, t', control)
    case Decide(d, order) =>
      if d !in w.drivers || !w.drivers[d].Deciding? || !Shuffled(t, order) then w
      else
        var (t', control) := Decided(t, w.drivers[d].round, w.drivers[d].consensus, order);
        Moved(w, d, t', control)
    case Restart => World(Restored(t, w.stopLogged), map[], w.spawned, 0, w.stopLogged)
  }

  function Run(w: World, steps: seq<Step>): World {
    if steps == [] then w else Apply(Run(w, steps[..|steps| - 1]), steps[|steps| - 1])
  }

  // ----- One driver -----

  ghost predicate OneDriver(w: World) {
    && (w.table.running <==> w.drivers != map[])
    && (forall i, j :: i in w.drivers && j in w.drivers ==> i == j)
    && (forall i :: i in w.drivers ==> Shows(w.table, w.drivers[i]))
    && (w.drivers == map[] ==> w.table.speaking == "")
  }

  /** The table shows whom its driver waits for. */
  predicate Shows(t: Table, k: Control) {
    t.speaking == match k
                  case Speaking(s) => s
                  case Consolidating(_) => t.moderator
                  case _ => ""
  }

  lemma MoveKeepsOneDriver(w: World, d: nat, t: Table, control: Option<Control>)
    requires OneDriver(w) && d in w.drivers && t.running == control.Some?
    requires if control.Some? then Shows(t, control.value) else t.speaking == ""
    ensures OneDriver(Moved(w, d, t, control))
  {
    assert w.drivers.Keys == {d};
    assert w.drivers - {d} == map[];
    if control.Some? { assert d in Moved(w, d, t, control).drivers; }
  }

  lemma StepKeepsOneDriver(w: World, step: Step)
    requires OneDriver(w)
    ensures OneDriver(Apply(w, step))
  {
    match step
    case Say(speaker, order) =>
      if !w.table.running { assert w.spawned in w.drivers[w.spawned := AtTop]; }
    case Take(d) =>
      if d in w.drivers && w.drivers[d].AtTop? { MoveKeepsOneDriver(w, d, Taken(w.table).0, Taken(w.table).1); }
    case Reply(d) =>
      if d in w.drivers && w.drivers[d].Speaking? {
        MoveKeepsOneDriver(w, d, Replied(w.table, w.drivers[d].speaker), Some(AtTop));
      }
    case Fail(d) =>
      if d in w.drivers && w.drivers[d].Speaking? {
        MoveKeepsOneDriver(w, d, Failed(w.table, w.drivers[d].speaker), None);
      }
    case Consolidate(d, answer, order) =>
      if d in w.drivers && w.drivers[d].Consolidating? {
        var (t, control) := Consolidated(w.table, w.drivers[d].round, answer, order);
        MoveKeepsOneDriver(w, d, t, control);
      }
    case Decide(d, order) =>
      if d in w.drivers && w.drivers[d].Deciding? {
        var (t, control) := Decided(w.table, w.drivers[d].round, w.drivers[d].consensus, order);
        MoveKeepsOneDriver(w, d, t, control);
      }
    case _ =>
  }

  // ----- The budget -----

  /** Agent runs that `rounds` full rounds take: everyone once, and the moderator. */
  function Cost(t: Table, rounds: nat): nat {
    rounds * (|t.participants| + 1)
  }

  lemma CostGrows(t: Table, a: nat, b: nat)
    requires a <= b
    ensures Cost(t, a) <= Cost(t, b)
  {
  }

  lemma CostOfOneMore(t: Table, a: nat)
    ensures Cost(t, a + 1) == Cost(t, a) + |t.participants| + 1
  {
  }

  /** How many runs a driver at this point may have behind it. */
  predicate Spent(w: World, k: Control) {
    var t := w.table;
    match k
    case Consolidating(r) => t.round <= r <= t.budget && w.runs <= Cost(t, t.round)
    case Deciding(r, _) => t.round <= r <= t.budget && w.runs <= Cost(t, t.round)
    case _ => t.round < t.budget && t.cursor <= |t.participants| && w.runs <= Cost(t, t.round) + t.cursor
  }

  ghost predicate Budgeted(w: World) {
    && w.table.budget > 0
    && w.runs <= Cost(w.table, w.table.budget)
    && (w.table.running ==> |w.table.order| == |w.table.participants|)
    && (forall i :: i in w.drivers ==> Spent(w, w.drivers[i]))
  }

  lemma ShuffledSize(t: Table, order: seq<string>)
    requires Shuffled(t, order)
    ensures |order| == |t.participants|
  {
    assert |multiset(order)| == |order| && |multiset(t.participants)| == |t.participants|;
  }

  lemma SayKeepsBudget(w: World, speaker: string, order: seq<string>)
    requires OneDriver(w) && Budgeted(w)
    ensures Budgeted(Apply(w, Say(speaker, order)))
  {
    if Shuffled(w.table, order) { ShuffledSize(w.table, order); }
    hide Cost;
  }

  lemma TakeKeepsBudget(w: World, d: nat)
    requires OneDriver(w) && Budgeted(w)
    ensures Budgeted(Apply(w, Take(d)))
  {
    if d in w.drivers && w.drivers[d].AtTop? {
      assert w.drivers.Keys == {d};
      CostOfOneMore(w.table, w.table.round);
      CostGrows(w.table, w.table.round + 1, w.table.budget);
    }
    hide Cost;
  }

  lemma DecisionKeepsBudget(w: World, d: nat, round: nat, consensus: bool, order: seq<string>)
    requires OneDriver(w) && Budgeted(w) && d in w.drivers && Shuffled(w.table, order)
    requires w.table.round <= round <= w.table.budget && w.runs <= Cost(w.table, w.table.round)
    ensures var (t, control) := Decided(w.table.(speaking := ""), round, consensus, order);
            Budgeted(Moved(w, d, t, control))
    ensures var (t, control) := Decided(w.table, round, consensus, order); Budgeted(Moved(w, d, t, control))
  {
    assert w.drivers.Keys == {d};
    ShuffledSize(w.table, order);
  }

  lemma StepKeepsBudget(w: World, step: Step)
    requires OneDriver(w) && Budgeted(w)
    ensures Budgeted(Apply(w, step))
  {
    match step
    case Say(speaker, order) => SayKeepsBudget(w, speaker, order);
    case Take(d) => TakeKeepsBudget(w, d);
    case Consolidate(d, answer, order) =>
      if d in w.drivers && w.drivers[d].Consolidating? && Shuffled(w.table, order) {
        DecisionKeepsBudget(w, d, w.drivers[d].round, false, order);
      }
    case Decide(d, order) =>
      if d in w.drivers && w.drivers[d].Deciding? && Shuffled(w.table, order) {
        DecisionKeepsBudget(w, d, w.drivers[d].round, w.drivers[d].consensus, order);
      }
    case _ =>
    hide Cost;
  }

  lemma {:induction false} EveryRunKeepsInv(participants: seq<string>, moderator: string, budget: int, steps: seq<Step>)
    requires budget > 0
    ensures var w := Run(Start(participants, moderator, budget), steps);
            OneDriver(w) && Budgeted(w) && w.table.participants == participants && w.table.budget == budget
  {
    hide Apply, OneDriver, Budgeted;
    if steps == [] {
      StartInv(participants, moderator, budget);
    } else {
      var prefix, last := steps[..|steps| - 1], steps[|steps| - 1];
      EveryRunKeepsInv(participants, moderator, budget, prefix);
      var w := Run(Start(participants, moderator, budget), prefix);
      StepKeepsOneDriver(w, last);
      StepKeepsBudget(w, last);
      StepKeepsConstants(w, last);
    }
  }

  lemma StartInv(participants: seq<string>, moderator: string, budget: int)
    requires budget > 0
    ensures var w := Start(participants, moderator, budget); OneDriver(w) && Budgeted(w)
  {
  }

  lemma StepKeepsConstants(w: World, step: Step)
    ensures var t := Apply(w, step).table; t.participants == w.table.participants && t.budget == w.table.budget
  {
  }

  /** At most one driver and one run in flight, and the table shows which. */
  lemma OneDriverOneRun(participants: seq<string>, moderator: string, budget: int, steps: seq<Step>, i: nat, j: nat)
    requires budget > 0
    requires var w := Run(Start(participants, moderator, budget), steps); i in w.drivers && j in w.drivers
    ensures var w := Run(Start(participants, moderator, budget), steps);
            i == j && w.table.running && Shows(w.table, w.drivers[i])
  {
    EveryRunKeepsInv(participants, moderator, budget, steps);
    hide Run, Budgeted;
  }

  /** One message from outside buys at most Budget rounds of everyone and the
      moderator, whatever fails, stops or comes in between. */
  lemma RunsPerMessage(participants: seq<string>, moderator: string, budget: int, steps: seq<Step>)
    requires budget > 0
    ensures Run(Start(participants, moderator, budget), steps).runs <= budget * (|participants| + 1)
  {
    EveryRunKeepsInv(participants, moderator, budget, steps);
    hide Run, OneDriver;
  }

  /** The step is a message that is taken, or a restart. */
  predicate Reopens(w: World, step: Step) {
    step.Restart? || (step.Say? && w.table.status != Stopped && Shuffled(w.table, step.order))
  }

  /** The step hands a driver an agent to wait for. */
  predicate StartsARun(w: World, step: Step) {
    && step.Take? && step.d in w.drivers && w.drivers[step.d] == AtTop
    && step.d in Apply(w, step).drivers && !Apply(w, step).drivers[step.d].AtTop?
  }

  /** Agent runs since the last message or restart, read off the steps. */
  function RunsSince(w: World, steps: seq<Step>): nat {
    if steps == [] then 0
    else
      var prefix, last := steps[..|steps| - 1], steps[|steps| - 1];
      if Reopens(Run(w, prefix), last) then 0
      else RunsSince(w, prefix) + if StartsARun(Run(w, prefix), last) then 1 else 0
  }

  lemma StepCounts(w: World, step: Step)
    ensures Apply(w, step).runs ==
            if Reopens(w, step) then 0 else w.runs + if StartsARun(w, step) then 1 else 0
  {
  }

  /** That is what the bound is about. */
  lemma {:induction false} RunsAreCounted(participants: seq<string>, moderator: string, budget: int, steps: seq<Step>)
    ensures var start := Start(participants, moderator, budget); Run(start, steps).runs == RunsSince(start, steps)
  {
    hide Apply, Reopens, StartsARun;
    if steps != [] {
      var start, prefix := Start(participants, moderator, budget), steps[..|steps| - 1];
      RunsAreCounted(participants, moderator, budget, prefix);
      StepCounts(Run(start, prefix), steps[|steps| - 1]);
    }
  }

  /** A restart keeps the transcript and a stop, and nothing of the round. */
  lemma RestartKeepsTheTranscript(w: World)
    ensures var t, r := w.table, Apply(w, Restart).table;
            && r.transcript == t.transcript && r.participants == t.participants && r.moderator == t.moderator
            && r.status == (if w.stopLogged then Stopped else Waiting)
            && r.order == [] && r.speaking == "" && Apply(w, Restart).drivers == map[]
  {
  }

  // ----- A round is a permutation -----

  function Speakers(turns: seq<Turn>): seq<string> {
    if turns == [] then [] else Speakers(turns[..|turns| - 1]) + [turns[|turns| - 1].speaker]
  }

  lemma SpeakersSnoc(turns: seq<Turn>, t: Turn)
    ensures Speakers(turns + [t]) == Speakers(turns) + [t.speaker]
  {
    assert (turns + [t])[..|turns|] == turns;
  }

  /** Who has spoken in the current round, as the transcript has it. */
  function Heard(t: Table): seq<string> {
    if t.roundStart <= |t.transcript| then Speakers(t.transcript[t.roundStart..]) else []
  }

  predicate InRound(t: Table, k: Control) {
    match k
    case AtTop => t.cursor <= |t.order| && Heard(t) == t.order[..t.cursor]
    case Speaking(s) => 0 < t.cursor <= |t.order| && s == t.order[t.cursor - 1] && Heard(t) == t.order[..t.cursor - 1]
    case Consolidating(_) => Heard(t) == t.order
    case Deciding(_, _) => true
  }

  /** While a driver runs, the order is a shuffle of the participants. */
  predicate Drawn(w: World) {
    && w.table.roundStart <= |w.table.transcript|
    && (w.table.running ==> Shuffled(w.table, w.table.order))
  }

  lemma StepKeepsDrawn(w: World, step: Step)
    requires OneDriver(w) && Drawn(w)
    ensures Drawn(Apply(w, step))
  {
  }

  lemma {:induction false} EveryRunKeepsDrawn(
      participants: seq<string>, moderator: string, budget: int, steps: seq<Step>)
    requires budget > 0
    ensures Drawn(Run(Start(participants, moderator, budget), steps))
  {
    hide Apply, OneDriver, Budgeted;
    if steps != [] {
      var prefix := steps[..|steps| - 1];
      EveryRunKeepsDrawn(participants, moderator, budget, prefix);
      EveryRunKeepsInv(participants, moderator, budget, prefix);
      hide Drawn;
      StepKeepsDrawn(Run(Start(participants, moderator, budget), prefix), steps[|steps| - 1]);
    }
  }

  /** A round has just been opened: its order is drawn and nobody has begun. */
  predicate Opened(w: World, d: nat) {
    d in w.drivers && w.drivers[d] == AtTop && w.table.cursor == 0 && w.table.roundStart == |w.table.transcript|
  }

  /** A message that is taken opens a round exactly when no agent is at work and no
      decision is pending; a decision to go on always opens one. */
  lemma RoundOpens(w: World, step: Step, d: nat)
    requires OneDriver(w) && Drawn(w) && d in Apply(w, step).drivers
    requires (step.Say? && w.table.status != Stopped && Shuffled(w.table, step.order))
             || (step.Decide? && step.d == d && Apply(w, step) != w)
    ensures Opened(Apply(w, step), d) <==> step.Say? ==> forall i :: i in w.drivers ==> w.drivers[i] == AtTop
    ensures Opened(Apply(w, step), d) ==> Apply(w, step).table.order == step.order
  {
    if step.Say? && w.table.running { assert d in w.drivers; }
  }

  /** Steps within one round: no message, no decision, no restart. */
  predicate Within(step: Step) {
    !step.Say? && !step.Consolidate? && !step.Decide? && !step.Restart?
  }

  ghost predicate Rounds(w: World, order: seq<string>, start: nat) {
    && w.table.order == order && w.table.roundStart == start <= |w.table.transcript|
    && forall i :: i in w.drivers ==> InRound(w.table, w.drivers[i])
  }

  lemma NobodyYet(t: Table)
    requires t.roundStart == |t.transcript|
    ensures Heard(t) == []
  {
  }

  lemma HeardSnoc(t: Table, t': Table, turn: Turn)
    requires t.roundStart == t'.roundStart <= |t.transcript| && t'.transcript == t.transcript + [turn]
    ensures Heard(t') == Heard(t) + [turn.speaker]
  {
    assert t'.transcript[t.roundStart..] == t.transcript[t.roundStart..] + [turn];
    SpeakersSnoc(t.transcript[t.roundStart..], turn);
  }

  lemma SameHeard(t: Table, t': Table)
    requires t.transcript == t'.transcript && t.roundStart == t'.roundStart
    ensures Heard(t) == Heard(t')
  {
  }

  lemma TakeKeepsRounds(w: World, d: nat, order: seq<string>, start: nat)
    requires OneDriver(w) && Rounds(w, order, start)
    ensures Rounds(Apply(w, Take(d)), order, start)
  {
    hide Heard;
    if d in w.drivers && w.drivers[d].AtTop? {
      assert w.drivers.Keys == {d};
      SameHeard(w.table, Apply(w, Take(d)).table);
      assert order[..|order|] == order;
      assert w.drivers - {d} == map[];
    }
  }

  lemma ReplyKeepsRounds(w: World, d: nat, order: seq<string>, start: nat)
    requires OneDriver(w) && Rounds(w, order, start)
    ensures Rounds(Apply(w, Reply(d)), order, start)
  {
    if d in w.drivers && w.drivers[d].Speaking? {
      assert w.drivers.Keys == {d};
      var t, t' := w.table, Apply(w, Reply(d)).table;
      HeardSnoc(t, t', Turn(w.drivers[d].speaker, false));
      assert t.order[..t.cursor] == t.order[..t.cursor - 1] + [t.order[t.cursor - 1]];
    }
    hide Heard;
  }

  lemma StepKeepsRounds(w: World, step: Step, order: seq<string>, start: nat)
    requires OneDriver(w) && Rounds(w, order, start) && Within(step)
    ensures Rounds(Apply(w, step), order, start)
  {
    match step
    case Take(d) => TakeKeepsRounds(w, d, order, start);
    case Reply(d) => ReplyKeepsRounds(w, d, order, start);
    case Fail(d) =>
      if d in w.drivers {
        assert w.drivers.Keys == {d};
        assert w.drivers - {d} == map[];
      }
    case Stop => SameHeard(w.table, Apply(w, Stop).table);
    hide Heard;
  }

  lemma {:induction false} RoundRun(w: World, steps: seq<Step>, d: nat)
    requires OneDriver(w) && Opened(w, d) && forall step :: step in steps ==> Within(step)
    ensures OneDriver(Run(w, steps)) && Rounds(Run(w, steps), w.table.order, w.table.roundStart)
  {
    if steps == [] {
      NobodyYet(w.table);
      assert w.table.order[..0] == [];
    } else {
      var prefix, last := steps[..|steps| - 1], steps[|steps| - 1];
      RoundRun(w, prefix, d);
      assert last in steps;
      hide OneDriver, Rounds, Apply, Heard;
      StepKeepsOneDriver(Run(w, prefix), last);
      StepKeepsRounds(Run(w, prefix), last, w.table.order, w.table.roundStart);
    }
  }

  /** From any reachable state in which a round has just been opened: if no message
      comes before the moderator is called, the transcript then holds, since the
      opening, exactly one turn of each participant, in the order drawn at the
      opening, and nothing else. */
  lemma CompletedRoundIsAPermutation(
      participants: seq<string>, moderator: string, budget: int, before: seq<Step>, w: World, round: seq<Step>, d: nat)
    requires budget > 0 && w == Run(Start(participants, moderator, budget), before) && Opened(w, d)
    requires forall step :: step in round ==> Within(step)
    requires d in Run(w, round).drivers && Run(w, round).drivers[d].Consolidating?
    ensures var t := Run(w, round).table;
            && |w.table.transcript| <= |t.transcript|
            && Speakers(t.transcript[|w.table.transcript|..]) == w.table.order
            && multiset(w.table.order) == multiset(participants)
  {
    EveryRunKeepsInv(participants, moderator, budget, before);
    EveryRunKeepsDrawn(participants, moderator, budget, before);
    RoundRun(w, round, d);
    hide Run, Budgeted, Speakers;
  }

  // ----- Questions that lose their driver -----

  /** A message has reopened the discussion and nobody has been given the floor
      since. */
  predicate Unserved(t: Table) {
    t.order != [] && t.cursor == 0 && t.round == 0
  }

  /** The question waits and no driver is left that could serve it. A restart, which
      forgets the order drawn for it, also leaves an unanswered question without a
      driver; that is not what is called parked here. */
  predicate Parked(w: World) {
    Unserved(w.table) && w.drivers == map[]
  }

  /** The steps that end a driver: a failed turn; a stop it finds at the top of its
      loop or on the moderator's return; consensus; and no rounds left by the count
      the round began with. */
  predicate EndsDriver(w: World, step: Step) {
    match step
    case Take(d) => d in w.drivers && w.drivers[d].AtTop? && w.table.status == Stopped
    case Fail(d) => d in w.drivers && w.drivers[d].Speaking?
    case Consolidate(d, answer, order) =>
      && d in w.drivers && w.drivers[d].Consolidating? && Shuffled(w.table, order)
      && (w.table.status == Stopped || (answer.Nothing? && w.drivers[d].round >= w.table.budget))
    case Decide(d, order) =>
      && d in w.drivers && w.drivers[d].Deciding? && Shuffled(w.table, order)
      && (w.drivers[d].consensus || w.drivers[d].round >= w.table.budget)
    case _ => false
  }

  lemma DriverGoneIff(w: World, step: Step)
    requires OneDriver(w) && w.drivers != map[] && !step.Restart?
    ensures Apply(w, step).drivers == map[] <==> EndsDriver(w, step)
  {
    var d :| d in w.drivers;
    assert w.drivers.Keys == {d};
    assert w.drivers - {d} == map[];
    if !EndsDriver(w, step) { assert d in Apply(w, step).drivers; }
  }

  lemma NobodyRuns(w: World, step: Step)
    requires OneDriver(w) && w.drivers == map[] && !step.Restart?
    ensures if step.Say? && w.table.status != Stopped && Shuffled(w.table, step.order) then
              Apply(w, step).drivers != map[]
            else
              Apply(w, step).drivers == map[] && (Parked(w) <==> Parked(Apply(w, step)))
  {
    if step.Say? { assert w.spawned in w.drivers[w.spawned := AtTop]; }
  }

  lemma EndingKeepsUnserved(w: World, step: Step)
    requires EndsDriver(w, step)
    ensures Unserved(Apply(w, step).table) <==> Unserved(w.table)
  {
  }

  /** A question is parked by exactly the steps that end the driver before anyone was
      given the floor. The message itself plays no part in that, and a restart never
      parks one, because no order is left then. */
  lemma ParkedIff(w: World, step: Step)
    requires OneDriver(w) && !Parked(w)
    ensures Parked(Apply(w, step)) <==> EndsDriver(w, step) && Unserved(w.table)
  {
    if !step.Restart? {
      if w.drivers == map[] {
        NobodyRuns(w, step);
      } else {
        DriverGoneIff(w, step);
        if EndsDriver(w, step) { EndingKeepsUnserved(w, step); }
      }
    }
  }

  /** Over runs: a question that is parked was parked by such a step, at which it
      was unserved, and has been parked ever since. */
  lemma {:induction false} ParkedHasACause(
      participants: seq<string>, moderator: string, budget: int, steps: seq<Step>) returns (i: nat)
    requires budget > 0 && Parked(Run(Start(participants, moderator, budget), steps))
    ensures i < |steps|
    ensures var w := Run(Start(participants, moderator, budget), steps[..i]);
            EndsDriver(w, steps[i]) && Unserved(w.table)
    ensures forall j :: i < j <= |steps| ==> Parked(Run(Start(participants, moderator, budget), steps[..j]))
  {
    var start := Start(participants, moderator, budget);
    hide Apply, OneDriver, Budgeted, Parked, EndsDriver, Unserved;
    assert steps != [] by { NotParkedAtStart(participants, moderator, budget); }
    var n := |steps| - 1;
    var w := Run(start, steps[..n]);
    EveryRunKeepsInv(participants, moderator, budget, steps[..n]);
    assert steps[..|steps|] == steps;
    if Parked(w) {
      i := ParkedHasACause(participants, moderator, budget, steps[..n]);
      assert steps[..n][..i] == steps[..i];
      forall j | i < j <= |steps| ensures Parked(Run(start, steps[..j])) {
        if j <= n { assert steps[..n][..j] == steps[..j]; }
      }
    } else {
      i := n;
      ParkedIff(w, steps[n]);
    }
  }

  lemma NotParkedAtStart(participants: seq<string>, moderator: string, budget: int)
    ensures !Parked(Start(participants, moderator, budget))
  {
  }

  /** And a question keeps its driver for as long as no such step comes. */
  lemma {:induction false} DriverServes(w: World, steps: seq<Step>)
    requires OneDriver(w) && w.drivers != map[] && (forall step :: step in steps ==> !step.Restart?)
    requires forall i :: 0 <= i < |steps| ==> !EndsDriver(Run(w, steps[..i]), steps[i])
    ensures OneDriver(Run(w, steps)) && Run(w, steps).drivers != map[] && !Parked(Run(w, steps))
  {
    hide Apply, OneDriver, EndsDriver;
    if steps != [] {
      var n := |steps| - 1;
      var prefix := steps[..n];
      forall i | 0 <= i < n ensures !EndsDriver(Run(w, prefix[..i]), prefix[i]) {
        assert prefix[..i] == steps[..i] && prefix[i] == steps[i];
      }
      DriverServes(w, prefix);
      assert steps[n] in steps;
      StepKeepsOneDriver(Run(w, prefix), steps[n]);
      DriverGoneIff(Run(w, prefix), steps[n]);
    }
  }

  lemma RunSnoc(w: World, steps: seq<Step>, step: Step)
    ensures Run(w, steps + [step]) == Apply(Run(w, steps), step)
  {
    assert (steps + [step])[..|steps|] == steps;
  }

  /** One participant has spoken, and the moderator has been called. */
  function ToModerator(a: string): seq<Step> {
    [Say("operator", [a])] + [Take(0)] + [Reply(0)] + [Take(0)]
  }

  lemma AtModerator(a: string, moderator: string)
    ensures var w := Run(Start([a], moderator, 1), ToModerator(a));
            && w.table == Table([a], moderator, 1, [Turn("operator", false), Turn(a, false)], Active, moderator, true,
              [a], 1, 1, 1)
            && w.drivers == map[0 := Consolidating(1)] && w.spawned == 1 && !w.stopLogged
  {
    var w0 := Start([a], moderator, 1);
    var w1 := Apply(w0, Say("operator", [a]));
    var w2 := Apply(w1, Take(0));
    var w3 := Apply(w2, Reply(0));
    var w4 := Apply(w3, Take(0));
    assert w1.drivers == map[0 := AtTop] && w1.table.order == [a];
    assert w2.drivers == map[0 := Speaking(a)];
    assert w3.drivers == map[0 := AtTop] && w3.table.transcript == [Turn("operator", false), Turn(a, false)];
    assert w4.drivers == map[0 := Consolidating(1)];
    assert Run(w0, ToModerator(a)) == w4 by {
      hide Apply;
      assert Run(w0, []) == w0;
      RunSnoc(w0, [], Say("operator", [a]));
      assert [] + [Say("operator", [a])] == [Say("operator", [a])];
      RunSnoc(w0, [Say("operator", [a])], Take(0));
      RunSnoc(w0, [Say("operator", [a])] + [Take(0)], Reply(0));
      RunSnoc(w0, [Say("operator", [a])] + [Take(0)] + [Reply(0)], Take(0));
    }
  }

  /** A question asked while the moderator consolidates the last round of an earlier
      one is parked unanswered: it is in the transcript, an order is drawn for it,
      and no driver is left. */
  lemma QuestionCanBeParked(a: string, moderator: string, consensus: bool)
    ensures var w := Run(Start([a], moderator, 1),
                         ToModerator(a) + [Say("operator", [a])]
                         + [Consolidate(0, Summary(consensus), [a])] + [Decide(0, [a])]);
            && Parked(w) && w.table.status == Waiting
            && w.table.transcript ==
               [Turn("operator", false), Turn(a, false), Turn("operator", false), Turn(moderator, false)]
  {
    var w0 := Start([a], moderator, 1);
    AtModerator(a, moderator);
    var w1 := Run(w0, ToModerator(a));
    hide Run;
    var w2 := Apply(w1, Say("operator", [a]));
    var w3 := Apply(w2, Consolidate(0, Summary(consensus), [a]));
    var w4 := Apply(w3, Decide(0, [a]));
    assert w2.drivers == map[0 := Consolidating(1)] && w2.table.order == [a];
    assert w3.drivers == map[0 := Deciding(1, consensus)];
    assert w4.drivers == map[] && w4.table.order == [a];
    RunSnoc(w0, ToModerator(a), Say("operator", [a]));
    RunSnoc(w0, ToModerator(a) + [Say("operator", [a])], Consolidate(0, Summary(consensus), [a]));
    RunSnoc(w0, ToModerator(a) + [Say("operator", [a])] + [Consolidate(0, Summary(consensus), [a])], Decide(0, [a]));
  }

  /** So is one asked while a participant speaks whose turn then fails. */
  lemma FailureCanParkAQuestion(a: string, moderator: string, budget: int)
    requires budget > 0
    ensures var w := Run(Start([a], moderator, budget),
            [Say("operator", [a])] + [Take(0)] + [Say("operator", [a])] + [Fail(0)]);
            Parked(w) && w.table.status == Waiting
  {
    var w0 := Start([a], moderator, budget);
    var w1 := Apply(w0, Say("operator", [a]));
    var w2 := Apply(w1, Take(0));
    var w3 := Apply(w2, Say("operator", [a]));
    var w4 := Apply(w3, Fail(0));
    assert w1.drivers == map[0 := AtTop] && w1.table.order == [a];
    assert w2.drivers == map[0 := Speaking(a)];
    assert w3.drivers == map[0 := Speaking(a)] && w3.table.order == [a];
    assert w4.drivers == map[] && w4.table.order == [a];
    assert Run(w0, [Say("operator", [a])] + [Take(0)] + [Say("operator", [a])] + [Fail(0)]) == w4 by {
      hide Apply;
      assert Run(w0, []) == w0;
      RunSnoc(w0, [], Say("operator", [a]));
      assert [] + [Say("operator", [a])] == [Say("operator", [a])];
      RunSnoc(w0, [Say("operator", [a])], Take(0));
      RunSnoc(w0, [Say("operator", [a])] + [Take(0)], Say("operator", [a]));
      RunSnoc(w0, [Say("operator", [a])] + [Take(0)] + [Say("operator", [a])], Fail(0));
    }
    hide Run, Apply;
  }

  // ----- Stopping -----

  lemma {:induction false} StopsAreLogged(participants: seq<string>, moderator: string, budget: int, steps: seq<Step>)
    ensures var w := Run(Start(participants, moderator, budget), steps); w.table.status == Stopped ==> w.stopLogged
  {
    hide Apply;
    if steps != [] {
      var prefix := steps[..|steps| - 1];
      StopsAreLogged(participants, moderator, budget, prefix);
      StepKeepsStopLogged(Run(Start(participants, moderator, budget), prefix), steps[|steps| - 1]);
    }
  }

  lemma StepKeepsStopLogged(w: World, step: Step)
    requires w.table.status == Stopped ==> w.stopLogged
    ensures Apply(w, step).table.status == Stopped ==> Apply(w, step).stopLogged
  {
  }

  /** A stopped table leaves that state exactly when its driver comes back with a
      failed turn, or parks after the moderator's text was saved. (A restart reads
      the stop back from the log.) */
  lemma StoppedStaysIff(w: World, step: Step)
    requires w.table.status == Stopped && w.stopLogged
    ensures Apply(w, step).table.status == Stopped <==> !(EndsDriver(w, step) && (step.Fail? || step.Decide?))
  {
  }

  /** It does happen: here the stop comes while the moderator's text is being saved,
      and the driver parks the stopped table as waiting. */
  lemma StopCanBeLost(a: string, moderator: string, consensus: bool)
    ensures var w := Run(Start([a], moderator, 1),
                         ToModerator(a) + [Consolidate(0, Summary(consensus), [a])] + [Stop] + [Decide(0, [a])]);
            w.stopLogged && w.table.status == Waiting
  {
    var w0 := Start([a], moderator, 1);
    AtModerator(a, moderator);
    var w1 := Run(w0, ToModerator(a));
    hide Run;
    var w2 := Apply(w1, Consolidate(0, Summary(consensus), [a]));
    var w3 := Apply(w2, Stop);
    var w4 := Apply(w3, Decide(0, [a]));
    assert w2.drivers == map[0 := Deciding(1, consensus)];
    assert w3.table.status == Stopped && w3.drivers == w2.drivers;
    assert w4.table.status == Waiting && w4.stopLogged;
    RunSnoc(w0, ToModerator(a), Consolidate(0, Summary(consensus), [a]));
    RunSnoc(w0, ToModerator(a) + [Consolidate(0, Summary(consensus), [a])], Stop);
    RunSnoc(w0, ToModerator(a) + [Consolidate(0, Summary(consensus), [a])] + [Stop], Decide(0, [a]));
  }

  // ----- The table object -----

  class RoundtableRoom {
    const participants: seq<string>
    const moderator: string
    const budget: int
    var transcript: seq<Turn>
    var status: Status
    var speaking: string
    var running: bool
    var order: seq<string>
    var cursor: nat
    var round: nat
    var roundStart: nat

    ghost function View(): Table
      reads this
    {
      Table(participants, moderator, budget, transcript, status, speaking, running, order, cursor, round, roundStart)
    }

    constructor (participants: seq<string>, moderator: string, budget: int)
      ensures View() == NewTable(participants, moderator, budget)
    {
      this.participants, this.moderator, this.budget := participants, moderator, budget;
      transcript, status, speaking, running, order, cursor, round, roundStart := [], Waiting, "", false, [], 0, 0, 0;
    }

    /** `shuffled` is what the shuffle makes of the participants. */
    method Say(speaker: string, shuffled: seq<string>) returns (ok: bool, start: bool)
      modifies this
      ensures (View(), start) == Said(old(View()), speaker, shuffled) && ok == (old(status) != Stopped)
    {
      if status == Stopped { return false, false; }
      transcript := transcript + [Turn(speaker, false)];
      order, cursor, round, roundStart, status := shuffled, 0, 0, |transcript|, Active;
      ok, start := true, !running;
      if start { running := true; }
    }

    method Stop()
      modifies this
      ensures View() == Halted(old(View()))
    {
      status := Stopped;
    }

    method TakeFloor() returns (control: Option<Control>)
      modifies this
      ensures (View(), control) == Taken(old(View()))
    {
      if status == Stopped {
        running := false;
        return None;
      }
      if cursor < |order| {
        var speaker := order[cursor];
        cursor, speaking := cursor + 1, speaker;
        return Some(Speaking(speaker));
      }
      round := round + 1;
      speaking := moderator;
      return Some(Consolidating(round));
    }

    method Deliver(speaker: string)
      modifies this
      ensures View() == Replied(old(View()), speaker)
    {
      speaking := "";
      transcript := transcript + [Turn(speaker, false)];
    }

    method RecordFailure(speaker: string)
      modifies this
      ensures View() == Failed(old(View()), speaker)
    {
      speaking := "";
      transcript := transcript + [Turn(speaker, true)];
      status, running := Waiting, false;
    }

    method Decide(round: nat, consensus: bool, shuffled: seq<string>) returns (control: Option<Control>)
      modifies this
      ensures (View(), control) == Decided(old(View()), round, consensus, shuffled)
    {
      if consensus || round >= budget {
        status, running := Waiting, false;
        return None;
      }
      order, cursor, roundStart := shuffled, 0, |transcript|;
      return Some(AtTop);
    }

    method ModeratorBack(round: nat, answer: Answer, shuffled: seq<string>) returns (control: Option<Control>)
      modifies this
      ensures (View(), control) == Consolidated(old(View()), round, answer, shuffled)
    {
      speaking := "";
      if status == Stopped {
        running := false;
        return None;
      }
      if answer.Summary? {
        transcript := transcript + [Turn(moderator, false)];
        return Some(Deciding(round, answer.consensus));
      }
      control := Decide(round, false, shuffled);
    }
  }
}
