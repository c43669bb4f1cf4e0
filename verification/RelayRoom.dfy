/** A room in relay mode: one driver hands the floor from agent to agent by mention
    until nobody is addressed, and a log from which a restart rebuilds it. */
module RelayRooms {
  import opened Options

  const OPERATOR := "operator"

  datatype Status = Waiting | Active | Stopped

  datatype Turn = Turn(speaker: string, mentions: seq<string>, failed: bool)

  /** An empty name stands for nobody. */
  datatype Room = Room(
    participants: seq<string>,
    organizer: string,
    maxChain: int,
    transcript: seq<Turn>,
    status: Status,
    next: string,
    speaking: string,
    lastSeen: map<string, nat>,
    chain: nat,
    running: bool)

  function NewRoom(participants: seq<string>, organizer: string, maxChain: int): Room {
    Room(participants, organizer, maxChain, [], Waiting, "", "", map[], 0, false)
  }

  /** What creating a room guarantees of its fixed parts. */
  predicate Proper(r: Room) {
    && r.maxChain > 0 && "" !in r.participants
    && (r.organizer == OPERATOR || r.organizer in r.participants)
  }

  // ----- Floor control -----

  /** Who speaks after a turn: the first mentioned, else an agent organizer other
      than the speaker, else nobody. */
  function After(r: Room, t: Turn): string {
    if t.mentions != [] then t.mentions[0]
    else if r.organizer != OPERATOR && r.organizer != t.speaker then r.organizer
    else ""
  }

  predicate Addresses(r: Room, t: Turn) {
    t.mentions != [] || (r.organizer != OPERATOR && r.organizer != t.speaker)
  }

  function Schedule(r: Room, t: Turn): Room {
    if r.status == Stopped then r.(next := "")
    else r.(next := After(r, t), status := if Addresses(r, t) then Active else Waiting)
  }

  /** A message from outside; whether it starts a driver. */
  function Said(r: Room, speaker: string, mentions: seq<string>): (Room, bool) {
    if r.status == Stopped then (r, false)
    else
      var t := Turn(speaker, mentions, false);
      var r' := Schedule(r.(transcript := r.transcript + [t], chain := 0), t);
      if r'.next != "" && !r'.running then (r'.(running := true), true) else (r', false)
  }

  function Halted(r: Room): Room {
    r.(status := Stopped, next := "")
  }

  /** The driver at the top of its loop: whom it lets speak, or that it ends. */
  function Taken(r: Room): (Room, Option<string>) {
    if r.status == Stopped || r.next == "" then (r.(running := false), None)
    else if r.chain >= r.maxChain then (r.(status := Waiting, next := "", running := false), None)
    else (r.(next := "", speaking := r.next), Some(r.next))
  }

  function Failed(r: Room, speaker: string): Room {
    r.(speaking := "", transcript := r.transcript + [Turn(speaker, [], true)], status := Waiting, running := false)
  }

  function Replied(r: Room, speaker: string, mentions: seq<string>): Room {
    var t := Turn(speaker, mentions, false);
    Schedule(r.(speaking := "", transcript := r.transcript + [t],
      lastSeen := r.lastSeen[speaker := |r.transcript| + 1], chain := r.chain + 1), t)
  }

  /** After a restart: whether an interrupted room gets a driver. */
  function Resumed(r: Room): (Room, bool) {
    if r.status == Active && r.next != "" && !r.running then (r.(running := true), true) else (r, false)
  }

  // ----- The log -----

  datatype Rec =
    | Meta(participants: seq<string>, organizer: string, maxChain: int)
    | TurnRec(turn: Turn)
    | StatusRec(status: Status)

  function LoadRec(room: Option<Room>, rec: Rec): Option<Room> {
    match rec
    case Meta(participants, organizer, maxChain) => Some(NewRoom(participants, organizer, maxChain))
    case TurnRec(t) => if room.Some? then Some(room.value.(transcript := room.value.transcript + [t])) else None
    case StatusRec(status) => if room.Some? then Some(room.value.(status := status)) else None
  }

  function Load(log: seq<Rec>): Option<Room> {
    if log == [] then None else LoadRec(Load(log[..|log| - 1]), log[|log| - 1])
  }

  /** One more than the place of the last turn p delivered, zero if there is none. */
  function SeenBy(transcript: seq<Turn>, p: string): nat {
    if transcript == [] then 0
    else
      var n := |transcript| - 1;
      if transcript[n].speaker == p && !transcript[n].failed then n + 1 else SeenBy(transcript[..n], p)
  }

  function SeenMap(ps: seq<string>, transcript: seq<Turn>): map<string, nat> {
    map p | p in ps :: SeenBy(transcript, p)
  }

  /** Turn-taking rebuilt from the transcript alone. */
  function Recovered(r: Room): Room {
    var q := r.(lastSeen := r.lastSeen + SeenMap(r.participants, r.transcript), speaking := "", running := false,
      chain := 0);
    if r.status == Stopped then q.(next := "")
    else if r.transcript == [] then q.(status := Waiting, next := "")
    else
      var last := r.transcript[|r.transcript| - 1];
      if last.failed then
        if last.speaker in r.participants then q.(next := last.speaker, status := Active)
        else q.(next := "", status := Waiting)
      else Schedule(q.(status := Waiting), last)
  }

  // ----- The room with its drivers and its log -----

  datatype Control = AtTop | InFlight(speaker: string)

  /** `successes` counts delivered turns since the last outside message or restart. */
  datatype World = World(room: Room, drivers: map<nat, Control>, spawned: nat, successes: nat, log: seq<Rec>)

  function Start(participants: seq<string>, organizer: string, maxChain: int): World {
    World(NewRoom(participants, organizer, maxChain), map[], 0, 0, [Meta(participants, organizer, maxChain)])
  }

  datatype Step =
    | Say(speaker: string, mentions: seq<string>)
    | Stop
    | Take(d: nat)
    | Reply(d: nat, mentions: seq<string>)
    | Fail(d: nat)
    | Restart
    | ResumePending

  function Spawn(w: World, started: bool): World {
    if started then w.(drivers := w.drivers[w.spawned := AtTop], spawned := w.spawned + 1) else w
  }

  predicate Flying(w: World, d: nat) {
    d in w.drivers && w.drivers[d].InFlight?
  }

  /** Mentions are of participants; steps that cannot happen change nothing. */
  function Apply(w: World, step: Step): World {
    var r := w.room;
    match step
    case Say(speaker, mentions) =>
      if r.status == Stopped || exists m :: m in mentions && m !in r.participants then w
      else
        var (r', started) := Said(r, speaker, mentions);
        Spawn(w.(room := r', successes := 0, log := w.log + [TurnRec(Turn(speaker, mentions, false))]), started)
    case Stop => w.(room := Halted(r), log := w.log + [StatusRec(Stopped)])
    case Take(d) =>
      if d !in w.drivers || w.drivers[d] != AtTop then w
      else
        var (r', who) := Taken(r);
        w.(room := r', drivers := if who.Some? then w.drivers[d := InFlight(who.value)] else w.drivers - {d})
    case Reply(d, mentions) =>
      if !Flying(w, d) || exists m :: m in mentions && m !in r.participants then w
      else
        var who := w.drivers[d].speaker;
        w.(room := Replied(r, who, mentions), drivers := w.drivers[d := AtTop],
           successes := w.successes + 1, log := w.log + [TurnRec(Turn(who, mentions, false))])
    case Fail(d) =>
      if !Flying(w, d) then w
      else
        var who := w.drivers[d].speaker;
        w.(room := Failed(r, who), drivers := w.drivers - {d}, log := w.log + [TurnRec(Turn(who, [], true))])
    case Restart =>
      var loaded := Load(w.log);
      if loaded.None? then w else World(Recovered(loaded.value), map[], w.spawned, 0, w.log)
    case ResumePending =>
      var (r', started) := Resumed(r);
      Spawn(w.(room := r'), started)
  }

  function Run(w: World, steps: seq<Step>): World {
    if steps == [] then w else Apply(Run(w, steps[..|steps| - 1]), steps[|steps| - 1])
  }

  // ----- One driver, one turn in flight, a bounded chain -----

  ghost predicate OneDriver(w: World) {
    && (w.room.running <==> w.drivers != map[])
    && (forall i, j :: i in w.drivers && j in w.drivers ==> i == j)
    && (forall i :: i in w.drivers ==>
      w.drivers[i] == if w.room.speaking == "" then AtTop else InFlight(w.room.speaking))
    && (w.drivers == map[] ==> w.room.speaking == "")
  }

  predicate ChainBounded(w: World) {
    && w.room.chain == w.successes <= w.room.maxChain
    && (w.room.speaking != "" ==> w.room.chain < w.room.maxChain)
  }

  predicate Named(w: World) {
    && Proper(w.room)
    && (w.room.next == "" || w.room.next in w.room.participants)
    && (w.room.speaking == "" || w.room.speaking in w.room.participants)
  }

  ghost predicate Inv(w: World) {
    OneDriver(w) && ChainBounded(w) && Named(w)
  }

  /** What the log rebuilds: the fixed parts and the transcript of the room. */
  ghost predicate Logged(w: World) {
    var loaded := Load(w.log);
    && loaded.Some?
    && loaded.value == NewRoom(w.room.participants, w.room.organizer, w.room.maxChain)
                       .(transcript := w.room.transcript, status := loaded.value.status)
    && (StatusRec(Stopped) in w.log <==> loaded.value.status == Stopped)
    && (w.room.status == Stopped ==> loaded.value.status == Stopped)
    && loaded.value.status != Active
  }

  lemma LoadSnoc(log: seq<Rec>, rec: Rec)
    ensures Load(log + [rec]) == LoadRec(Load(log), rec)
  {
    assert (log + [rec])[..|log|] == log;
  }

  lemma TurnKeepsLogged(w: World, w': World, t: Turn)
    requires Logged(w) && w'.log == w.log + [TurnRec(t)]
    requires w'.room.transcript == w.room.transcript + [t] && (w'.room.status == Stopped ==> w.room.status == Stopped)
    requires w'.room.participants == w.room.participants && w'.room.organizer == w.room.organizer
             && w'.room.maxChain == w.room.maxChain
    ensures Logged(w')
  {
    LoadSnoc(w.log, TurnRec(t));
    hide Load;
  }

  lemma StopKeepsLogged(w: World)
    requires Logged(w)
    ensures Logged(Apply(w, Stop))
  {
    LoadSnoc(w.log, StatusRec(Stopped));
    hide Load;
    assert StatusRec(Stopped) in w.log + [StatusRec(Stopped)];
  }

  lemma QuietKeepsLogged(w: World, step: Step)
    requires Logged(w) && (step.Take? || step.ResumePending? || step.Restart?)
    ensures Logged(Apply(w, step))
  {
    hide Load;
  }

  lemma StepKeepsLogged(w: World, step: Step)
    requires Logged(w)
    ensures Logged(Apply(w, step))
  {
    match step
    case Say(speaker, mentions) =>
      var w' := Apply(w, step);
      if w'.log != w.log { TurnKeepsLogged(w, w', Turn(speaker, mentions, false)); }
    case Reply(d, mentions) =>
      if Apply(w, step).log != w.log {
        TurnKeepsLogged(w, Apply(w, step), Turn(w.drivers[d].speaker, mentions, false));
      }
    case Fail(d) => if Flying(w, d) { TurnKeepsLogged(w, Apply(w, step), Turn(w.drivers[d].speaker, [], true)); }
    case Stop => StopKeepsLogged(w);
    case _ => QuietKeepsLogged(w, step);
    hide Logged;
  }

  lemma SayKeepsInv(w: World, speaker: string, mentions: seq<string>)
    requires Inv(w)
    ensures Inv(Apply(w, Say(speaker, mentions)))
  {
    SpawnKeepsOne(w, Said(w.room, speaker, mentions).1);
  }

  lemma SpawnKeepsOne(w: World, started: bool)
    ensures started ==> w.spawned in Spawn(w, started).drivers
  {
  }

  lemma ResumeKeepsInv(w: World)
    requires Inv(w)
    ensures Inv(Apply(w, ResumePending))
  {
    SpawnKeepsOne(w, Resumed(w.room).1);
  }

  lemma TakeKeepsInv(w: World, d: nat)
    requires Inv(w)
    ensures Inv(Apply(w, Take(d)))
  {
    if d in w.drivers && w.drivers[d] == AtTop {
      assert w.drivers.Keys == {d};
      assert w.drivers - {d} == map[];
    }
  }

  lemma ReplyKeepsInv(w: World, d: nat, mentions: seq<string>)
    requires Inv(w)
    ensures Inv(Apply(w, Reply(d, mentions)))
  {
    if Flying(w, d) { assert w.drivers.Keys == {d}; }
  }

  lemma FailKeepsInv(w: World, d: nat)
    requires Inv(w)
    ensures Inv(Apply(w, Fail(d)))
  {
    if Flying(w, d) {
      assert w.drivers.Keys == {d};
      assert w.drivers - {d} == map[];
    }
  }

  lemma RecoveredNext(r: Room)
    requires Proper(r) && r.status != Active
    requires forall t :: t in r.transcript ==> forall m :: m in t.mentions ==> m in r.participants
    ensures var q := Recovered(r); q.next == "" || q.next in r.participants
  {
    if r.transcript != [] { assert r.transcript[|r.transcript| - 1] in r.transcript; }
  }

  /** Every turn in the transcript mentions participants only. */
  predicate MentionsKnown(w: World) {
    forall t :: t in w.room.transcript ==> forall m :: m in t.mentions ==> m in w.room.participants
  }

  lemma StepKeepsMentions(w: World, step: Step)
    requires Logged(w) && MentionsKnown(w)
    ensures MentionsKnown(Apply(w, step))
  {
    hide Load;
  }

  lemma RestartKeepsInv(w: World)
    requires Inv(w) && Logged(w) && MentionsKnown(w)
    ensures Inv(Apply(w, Restart))
  {
    RecoveredNext(Load(w.log).value);
    hide Load;
  }

  lemma StepKeepsInv(w: World, step: Step)
    requires Inv(w) && Logged(w) && MentionsKnown(w)
    ensures Inv(Apply(w, step))
  {
    match step
    case Say(speaker, mentions) => SayKeepsInv(w, speaker, mentions);
    case Take(d) => TakeKeepsInv(w, d);
    case Reply(d, mentions) => ReplyKeepsInv(w, d, mentions);
    case Fail(d) => FailKeepsInv(w, d);
    case Restart => RestartKeepsInv(w);
    case ResumePending => ResumeKeepsInv(w);
    case Stop =>
  }

  lemma StartInv(participants: seq<string>, organizer: string, maxChain: int)
    requires Proper(NewRoom(participants, organizer, maxChain))
    ensures var w := Start(participants, organizer, maxChain); Inv(w) && Logged(w) && MentionsKnown(w)
  {
    var log := [Meta(participants, organizer, maxChain)];
    assert log[..0] == [];
    assert Load(log) == Some(NewRoom(participants, organizer, maxChain));
  }

  lemma {:induction false} EveryRunKeepsInv(
      participants: seq<string>, organizer: string, maxChain: int, steps: seq<Step>)
    requires Proper(NewRoom(participants, organizer, maxChain))
    ensures var w := Run(Start(participants, organizer, maxChain), steps); Inv(w) && Logged(w) && MentionsKnown(w)
  {
    hide Inv, Logged, MentionsKnown, Apply;
    if steps == [] {
      StartInv(participants, organizer, maxChain);
    } else {
      var prefix, last := steps[..|steps| - 1], steps[|steps| - 1];
      EveryRunKeepsInv(participants, organizer, maxChain, prefix);
      var w := Run(Start(participants, organizer, maxChain), prefix);
      StepKeepsInv(w, last);
      StepKeepsLogged(w, last);
      StepKeepsMentions(w, last);
    }
  }

  /** However messages, stops, failures, restarts and resumptions interleave with
      the driver: never two drivers, never two turns in flight, and the one turn in
      flight is the one the room shows. */
  lemma OneDriverOneTurn(participants: seq<string>, organizer: string, maxChain: int, steps: seq<Step>, i: nat, j: nat)
    requires Proper(NewRoom(participants, organizer, maxChain))
    requires var w := Run(Start(participants, organizer, maxChain), steps); i in w.drivers && j in w.drivers
    ensures var w := Run(Start(participants, organizer, maxChain), steps);
            && i == j && w.room.running
            && (w.drivers[i].InFlight? <==> w.room.speaking != "")
            && (w.drivers[i].InFlight? ==> w.drivers[i].speaker == w.room.speaking)
  {
    EveryRunKeepsInv(participants, organizer, maxChain, steps);
    hide Run;
  }

  lemma StepKeepsMaxChain(w: World, step: Step)
    requires Logged(w)
    ensures var r := Apply(w, step).room;
            r.maxChain == w.room.maxChain && r.participants == w.room.participants && r.organizer == w.room.organizer
  {
    hide Load;
  }

  lemma {:induction false} RunKeepsMaxChain(
      participants: seq<string>, organizer: string, maxChain: int, steps: seq<Step>)
    requires Proper(NewRoom(participants, organizer, maxChain))
    ensures var r := Run(Start(participants, organizer, maxChain), steps).room;
            r.maxChain == maxChain && r.participants == participants && r.organizer == organizer
  {
    hide Apply, Inv, Logged, MentionsKnown;
    if steps != [] {
      var prefix := steps[..|steps| - 1];
      RunKeepsMaxChain(participants, organizer, maxChain, prefix);
      EveryRunKeepsInv(participants, organizer, maxChain, prefix);
      StepKeepsMaxChain(Run(Start(participants, organizer, maxChain), prefix), steps[|steps| - 1]);
    }
  }

  /** No more than MaxChain turns are delivered between one outside message or
      restart and the next. */
  lemma ChainIsBounded(participants: seq<string>, organizer: string, maxChain: int, steps: seq<Step>)
    requires Proper(NewRoom(participants, organizer, maxChain))
    ensures Run(Start(participants, organizer, maxChain), steps).successes <= maxChain
  {
    EveryRunKeepsInv(participants, organizer, maxChain, steps);
    RunKeepsMaxChain(participants, organizer, maxChain, steps);
    hide Run;
  }

  // ----- Stopping -----

  /** A stopped room leaves that state at one kind of step only: the turn that was
      in flight when it was stopped comes back failed. (A restart reads the stop
      back from the log.) */
  lemma StoppedStaysIff(w: World, step: Step)
    requires Logged(w) && w.room.status == Stopped
    ensures Apply(w, step).room.status == Stopped <==> !(step.Fail? && Flying(w, step.d))
  {
    hide Load;
  }

  predicate NobodyAfterAStop(w: World) {
    w.room.status == Stopped ==> w.room.next == ""
  }

  lemma StepKeepsNobody(w: World, step: Step)
    requires NobodyAfterAStop(w)
    ensures NobodyAfterAStop(Apply(w, step))
  {
    hide Load, SeenBy;
  }

  lemma {:induction false} EveryRunKeepsNobody(w: World, steps: seq<Step>)
    requires NobodyAfterAStop(w)
    ensures NobodyAfterAStop(Run(w, steps))
  {
    hide Apply, NobodyAfterAStop;
    if steps != [] {
      EveryRunKeepsNobody(w, steps[..|steps| - 1]);
      StepKeepsNobody(Run(w, steps[..|steps| - 1]), steps[|steps| - 1]);
    }
  }

  /** In every run, nobody is next in a stopped room, a message to it is not taken, and
      a driver that comes to it ends and lets nobody speak. */
  lemma StoppedRoomIsSilent(participants: seq<string>, organizer: string, maxChain: int, steps: seq<Step>, step: Step)
    requires Proper(NewRoom(participants, organizer, maxChain))
    requires Run(Start(participants, organizer, maxChain), steps).room.status == Stopped && (step.Say? || step.Take?)
    ensures var w := Run(Start(participants, organizer, maxChain), steps);
            var w' := Apply(w, step);
            && w.room.next == "" && w'.room.transcript == w.room.transcript && w'.room.speaking == w.room.speaking
            && (step.Say? ==> w' == w)
            && (step.Take? && step.d in w.drivers && w.drivers[step.d] == AtTop ==> w'.drivers == map[])
  {
    var w := Run(Start(participants, organizer, maxChain), steps);
    EveryRunKeepsNobody(Start(participants, organizer, maxChain), steps);
    EveryRunKeepsInv(participants, organizer, maxChain, steps);
    hide Run, Logged;
    if step.Take? && step.d in w.drivers && w.drivers[step.d] == AtTop {
      assert w.drivers.Keys == {step.d};
      assert w.drivers - {step.d} == map[];
    }
  }

  /** So a stop is not final: this room is stopped while its agent is thinking, the
      agent fails, and an operator's message sets it going again. */
  lemma StopCanBeUndone(a: string, maxChain: int)
    requires a != "" && a != OPERATOR && maxChain > 0
    ensures var w := Run(Start([a], OPERATOR, maxChain),
            [Say(OPERATOR, [a]), Take(0), Stop, Fail(0), Say(OPERATOR, [a])]);
            w.room.status == Active && w.room.next == a && w.room.running
  {
    var w0 := Start([a], OPERATOR, maxChain);
    var w1 := Apply(w0, Say(OPERATOR, [a]));
    var w2 := Apply(w1, Take(0));
    var w3 := Apply(w2, Stop);
    var w4 := Apply(w3, Fail(0));
    var w5 := Apply(w4, Say(OPERATOR, [a]));
    assert w1.drivers == map[0 := AtTop] && w1.room.next == a && w1.room.status == Active;
    assert w2.drivers == map[0 := InFlight(a)] && w2.room.running;
    assert w3.room.status == Stopped && w3.drivers == w2.drivers;
    assert w4.room.status == Waiting && !w4.room.running && w4.drivers == map[];
    assert w5.room.status == Active && w5.room.next == a && w5.room.running;
    RunOfFive(w0, Say(OPERATOR, [a]), Take(0), Stop, Fail(0), Say(OPERATOR, [a]));
    hide Apply, Run;
  }

  lemma RunOfFive(w: World, a: Step, b: Step, c: Step, d: Step, e: Step)
    ensures Run(w, [a, b, c, d, e]) == Apply(Apply(Apply(Apply(Apply(w, a), b), c), d), e)
  {
    hide Apply;
    assert [a, b, c, d, e][..4] == [a, b, c, d] && [a, b, c, d][..3] == [a, b, c] && [a, b, c][..2] == [a, b]
           && [a, b][..1] == [a] && [a][..0] == [];
    assert Run(w, []) == w;
    assert Run(w, [a]) == Apply(w, a);
    assert Run(w, [a, b]) == Apply(Run(w, [a]), b);
    assert Run(w, [a, b, c]) == Apply(Run(w, [a, b]), c);
    assert Run(w, [a, b, c, d]) == Apply(Run(w, [a, b, c]), d);
  }

  // ----- What a restart restores -----

  function LastSeen(r: Room, p: string): nat {
    if p in r.lastSeen then r.lastSeen[p] else 0
  }

  lemma SeenSnoc(transcript: seq<Turn>, t: Turn, p: string)
    ensures SeenBy(transcript + [t], p) == if t.speaker == p && !t.failed then |transcript| + 1
            else SeenBy(transcript, p)
  {
    assert (transcript + [t])[..|transcript|] == transcript;
  }

  lemma RestartSeen(w: World, p: string)
    requires Logged(w) && p in w.room.participants
    ensures LastSeen(Apply(w, Restart).room, p) == SeenBy(w.room.transcript, p)
    ensures Apply(w, Restart).room.participants == w.room.participants
            && Apply(w, Restart).room.transcript == w.room.transcript
  {
    hide Load;
  }

  /** The message is taken: the room is not stopped, and it mentions participants. */
  predicate Accepted(w: World, mentions: seq<string>) {
    w.room.status != Stopped && forall m :: m in mentions ==> m in w.room.participants
  }

  /** A message is posted, and taken, under the name of p. */
  predicate Impersonates(w: World, step: Step, p: string) {
    step.Say? && step.speaker == p && Accepted(w, step.mentions)
  }

  /** p delivers a turn. */
  predicate Delivers(w: World, step: Step, p: string) {
    && step.Reply? && Flying(w, step.d) && w.drivers[step.d].speaker == p
    && forall m :: m in step.mentions ==> m in w.room.participants
  }

  /** The last thing said under p's name, since the last restart, was a message that
      p did not deliver. */
  ghost predicate Misattributed(w: World, steps: seq<Step>, p: string) {
    if steps == [] then false
    else
      var before, last := Run(w, steps[..|steps| - 1]), steps[|steps| - 1];
      if Impersonates(before, last, p) then true
      else if Delivers(before, last, p) || last.Restart? then false
      else Misattributed(w, steps[..|steps| - 1], p)
  }

  /** The room and its transcript agree on what p has read, or the transcript counts
      a message under p's name that the room does not. */
  predicate SeenUpTo(r: Room, p: string, mis: bool) {
    && SeenBy(r.transcript, p) <= |r.transcript|
    && if mis then LastSeen(r, p) < SeenBy(r.transcript, p) else LastSeen(r, p) == SeenBy(r.transcript, p)
  }

  lemma TurnSeen(r: Room, r': Room, t: Turn, p: string, mis: bool)
    requires SeenUpTo(r, p, mis) && r'.transcript == r.transcript + [t] && r'.lastSeen == r.lastSeen
    ensures SeenUpTo(r', p, if t.speaker == p && !t.failed then true else mis)
  {
    SeenSnoc(r.transcript, t, p);
    hide SeenBy;
  }

  lemma DeliveredSeen(r: Room, r': Room, t: Turn, p: string, mis: bool)
    requires SeenUpTo(r, p, mis) && r'.transcript == r.transcript + [t] && !t.failed
    requires r'.lastSeen == r.lastSeen[t.speaker := |r.transcript| + 1]
    ensures SeenUpTo(r', p, if t.speaker == p then false else mis)
  {
    SeenSnoc(r.transcript, t, p);
    hide SeenBy;
  }

  lemma SaySeen(w: World, speaker: string, mentions: seq<string>, p: string, mis: bool)
    requires SeenUpTo(w.room, p, mis)
    ensures SeenUpTo(Apply(w, Say(speaker, mentions)).room, p, Impersonates(w, Say(speaker, mentions), p) || mis)
  {
    hide SeenBy, SeenUpTo;
    var step := Say(speaker, mentions);
    if Accepted(w, mentions) {
      TurnSeen(w.room, Apply(w, step).room, Turn(speaker, mentions, false), p, mis);
    } else {
      assert Apply(w, step) == w;
    }
  }

  lemma ReplySeen(w: World, d: nat, mentions: seq<string>, p: string, mis: bool)
    requires SeenUpTo(w.room, p, mis)
    ensures SeenUpTo(Apply(w, Reply(d, mentions)).room, p, mis && !Delivers(w, Reply(d, mentions), p))
  {
    hide SeenBy, SeenUpTo;
    var w' := Apply(w, Reply(d, mentions));
    if Flying(w, d) && forall m :: m in mentions ==> m in w.room.participants {
      DeliveredSeen(w.room, w'.room, Turn(w.drivers[d].speaker, mentions, false), p, mis);
    } else {
      assert w' == w;
    }
  }

  lemma QuietSeen(w: World, step: Step, p: string, mis: bool)
    requires SeenUpTo(w.room, p, mis) && (step.Take? || step.Stop? || step.ResumePending?)
    ensures SeenUpTo(Apply(w, step).room, p, mis)
  {
    hide SeenBy;
  }

  lemma {:induction false} SeenAtMost(transcript: seq<Turn>, p: string)
    ensures SeenBy(transcript, p) <= |transcript|
  {
    if transcript != [] { SeenAtMost(transcript[..|transcript| - 1], p); }
  }

  lemma StepSeen(w: World, step: Step, p: string, mis: bool)
    requires Logged(w) && p in w.room.participants && SeenUpTo(w.room, p, mis)
    ensures SeenUpTo(Apply(w, step).room, p,
                     Impersonates(w, step, p) || (mis && !Delivers(w, step, p) && !step.Restart?))
  {
    hide Load, SeenBy, SeenUpTo, Logged;
    match step
    case Say(speaker, mentions) => SaySeen(w, speaker, mentions, p, mis);
    case Reply(d, mentions) => ReplySeen(w, d, mentions, p, mis);
    case Fail(d) =>
      if Flying(w, d) { TurnSeen(w.room, Apply(w, step).room, Turn(w.drivers[d].speaker, [], true), p, mis); }
    case Restart => RestoredSeen(w, p);
    case _ => QuietSeen(w, step, p, mis);
  }

  lemma RestoredSeen(w: World, p: string)
    requires Logged(w) && p in w.room.participants
    ensures SeenUpTo(Apply(w, Restart).room, p, false)
  {
    RestartSeen(w, p);
    SeenAtMost(w.room.transcript, p);
    hide Logged, Apply;
  }

  lemma {:induction false} EveryRunSeen(
      participants: seq<string>, organizer: string, maxChain: int, steps: seq<Step>, p: string)
    requires Proper(NewRoom(participants, organizer, maxChain)) && p in participants
    ensures var start := Start(participants, organizer, maxChain);
            SeenUpTo(Run(start, steps).room, p, Misattributed(start, steps, p))
  {
    hide Inv, Logged, MentionsKnown, Apply;
    if steps != [] {
      var prefix := steps[..|steps| - 1];
      EveryRunSeen(participants, organizer, maxChain, prefix, p);
      EveryRunKeepsInv(participants, organizer, maxChain, prefix);
      RunKeepsMaxChain(participants, organizer, maxChain, prefix);
      hide SeenUpTo, Impersonates, Delivers;
      var start := Start(participants, organizer, maxChain);
      StepSeen(Run(start, prefix), steps[|steps| - 1], p, Misattributed(start, prefix, p));
      NotBoth(Run(start, prefix), steps[|steps| - 1], p);
    }
  }

  lemma NotBoth(w: World, step: Step, p: string)
    ensures !(Impersonates(w, step, p) && (Delivers(w, step, p) || step.Restart?))
  {
  }

  /** The log alone restores how far a participant had read, after whichever step the
      process dies, exactly unless the last thing said under its name was a message it
      did not deliver. A turn and its line in the log are one step here. */
  lemma RestartRestoresLastSeenIff(
      participants: seq<string>, organizer: string, maxChain: int, steps: seq<Step>, p: string)
    requires Proper(NewRoom(participants, organizer, maxChain)) && p in participants
    ensures var start := Start(participants, organizer, maxChain);
            var w := Run(start, steps);
            LastSeen(Apply(w, Restart).room, p) == LastSeen(w.room, p) <==> !Misattributed(start, steps, p)
  {
    EveryRunSeen(participants, organizer, maxChain, steps, p);
    EveryRunKeepsInv(participants, organizer, maxChain, steps);
    RunKeepsMaxChain(participants, organizer, maxChain, steps);
    hide Run, Apply, Logged, Inv, Misattributed, SeenBy;
    RestartSeen(Run(Start(participants, organizer, maxChain), steps), p);
  }

  lemma {:induction false} NoneMisattributed(w: World, steps: seq<Step>, p: string)
    requires forall step :: step in steps && step.Say? ==> step.speaker != p
    ensures !Misattributed(w, steps, p)
  {
    if steps != [] {
      assert steps[|steps| - 1] in steps;
      NoneMisattributed(w, steps[..|steps| - 1], p);
    }
    hide Apply;
  }

  /** So where no message is posted under a participant's name, every lastSeen is
      restored. */
  lemma RestartRestoresLastSeen(
      participants: seq<string>, organizer: string, maxChain: int, steps: seq<Step>, p: string)
    requires Proper(NewRoom(participants, organizer, maxChain)) && p in participants
    requires forall step :: step in steps && step.Say? ==> step.speaker !in participants
    ensures var w := Run(Start(participants, organizer, maxChain), steps);
            LastSeen(Apply(w, Restart).room, p) == LastSeen(w.room, p)
  {
    hide Run, Apply, Misattributed;
    NoneMisattributed(Start(participants, organizer, maxChain), steps, p);
    RestartRestoresLastSeenIff(participants, organizer, maxChain, steps, p);
  }

  /** A message under a participant's own name is taken for a turn it delivered:
      the live room still owes it that message, the restored one does not. */
  lemma ImpersonationIsMistakenForATurn(a: string, b: string, maxChain: int)
    requires a != "" && b != "" && a != b && maxChain > 0
    ensures var w := Apply(Start([a, b], OPERATOR, maxChain), Say(a, [b]));
            LastSeen(w.room, a) == 0 && LastSeen(Apply(w, Restart).room, a) == 1
  {
    var w0 := Start([a, b], OPERATOR, maxChain);
    StartInv([a, b], OPERATOR, maxChain);
    StepKeepsLogged(w0, Say(a, [b]));
    var w := Apply(w0, Say(a, [b]));
    assert w.room.transcript == [] + [Turn(a, [b], false)];
    SeenSnoc([], Turn(a, [b], false), a);
    hide Logged, Load;
    RestartSeen(w, a);
  }

  // ----- Who speaks next -----

  /** A message that is taken, or a reply that is delivered, in a room that is not
      stopped. */
  predicate Speaks(w: World, step: Step) {
    && w.room.status != Stopped
    && ((step.Say? && Accepted(w, step.mentions)) || (step.Reply? && Flying(w, step.d) && Accepted(w, step.mentions)))
  }

  /** It is the last turn of the transcript, and gives the floor to whomever it mentions
      first; for want of a mention to an organizer that is an agent, unless the
      organizer spoke it; and otherwise to nobody, and the room waits. */
  lemma FirstMentionGetsTheFloor(w: World, step: Step)
    requires Inv(w) && Speaks(w, step)
    ensures var r, r' := w.room, Apply(w, step).room;
            var speaker := if step.Say? then step.speaker else w.drivers[step.d].speaker;
            && r'.transcript == r.transcript + [Turn(speaker, step.mentions, false)]
            && (step.mentions != [] ==> r'.next == step.mentions[0])
            && (step.mentions == [] && r.organizer != OPERATOR && r.organizer != speaker ==> r'.next == r.organizer)
            && (step.mentions == [] && (r.organizer == OPERATOR || r.organizer == speaker) ==> r'.next == "")
            && r'.status == (if r'.next == "" then Waiting else Active)
            && r'.chain == (if step.Say? then 0 else r.chain + 1)
  {
    if step.mentions != [] { assert step.mentions[0] in step.mentions; }
  }

  /** Whoever has the floor is the next to speak: the driver hands it over and the turn
      is delivered under that name, unless the room is stopped or the chain is at its
      end. */
  lemma NextSpeakerSpeaks(w: World, d: nat, mentions: seq<string>)
    requires Inv(w) && d in w.drivers && w.drivers[d] == AtTop && w.room.next != "" && Accepted(w, mentions)
    requires w.room.chain < w.room.maxChain
    ensures var taken, said := Apply(w, Take(d)), Run(w, [Take(d), Reply(d, mentions)]);
            && taken.room.speaking == w.room.next && taken.room.next == "" && Flying(taken, d)
            && said.room.transcript == w.room.transcript + [Turn(w.room.next, mentions, false)]
            && said.room.speaking == "" && d in said.drivers && said.drivers[d] == AtTop
  {
    var a, b := Take(d), Reply(d, mentions);
    assert [a, b][..1] == [a] && [a][..0] == [];
    assert Run(w, []) == w;
    assert Run(w, [a]) == Apply(w, a);
  }

  /** At the end of its chain the room is parked: the driver ends, nobody speaks or is
      next, and the room waits for a message. */
  lemma ChainEndParks(w: World, d: nat)
    requires Inv(w) && d in w.drivers && w.drivers[d] == AtTop && w.room.next != ""
    requires w.room.status != Stopped && w.room.chain >= w.room.maxChain
    ensures var w' := Apply(w, Take(d));
            && w'.room == w.room.(status := Waiting, next := "", running := false) && w'.drivers == map[]
  {
    assert w.drivers.Keys == {d};
    assert w.drivers - {d} == map[];
  }

  // ----- Whether anybody serves the floor -----

  /** Somebody is next, and no driver is there to let them speak. */
  predicate Unserved(w: World) {
    w.room.next != "" && w.room.status != Stopped && w.drivers == map[]
  }

  /** A step other than a restart leaves somebody unserved exactly when it is the failure
      of a turn during which a message gave the floor to another. */
  lemma UnservedIff(w: World, step: Step)
    requires Inv(w) && !Unserved(w) && !step.Restart?
    ensures Unserved(Apply(w, step)) <==> step.Fail? && Flying(w, step.d) && w.room.next != ""
  {
    match step
    case Say(speaker, mentions) =>
      SpawnKeepsOne(w, Said(w.room, speaker, mentions).1);
      var r := Said(w.room, speaker, mentions).0;
      assert r.next != "" && r.status != Stopped ==> Said(w.room, speaker, mentions).1 || w.room.running;
    case ResumePending => SpawnKeepsOne(w, Resumed(w.room).1);
    case Take(d) => if d in w.drivers { assert w.drivers.Keys == {d}; }
    case Reply(d, _) => if d in w.drivers { assert d in w.drivers[d := AtTop]; }
    case Fail(d) =>
      if Flying(w, d) {
        assert w.drivers.Keys == {d};
        assert w.drivers - {d} == map[];
      }
    case _ =>
  }

  /** After a restart the resume gives whoever is next a driver. */
  lemma ResumeServes(w: World)
    requires Inv(w) && w.room.status == Active
    ensures !Unserved(Apply(w, ResumePending))
  {
    SpawnKeepsOne(w, Resumed(w.room).1);
  }

  /** A driver is started only in an active room, for somebody who is to speak, and only
      where none is at work. */
  lemma DriverStartsForASpeaker(w: World, step: Step, d: nat)
    requires Inv(w) && d !in w.drivers && d in Apply(w, step).drivers
    ensures w.drivers == map[] && Apply(w, step).room.status == Active && Apply(w, step).room.next != ""
  {
  }

  /** A run that leaves somebody unserved: while a speaks, a message calls on b, and then
      a's turn fails. */
  lemma FailureCanLeaveAMessageUnserved(a: string, b: string, maxChain: int)
    requires a != "" && b != "" && maxChain > 0
    ensures var w := Run(Start([a, b], OPERATOR, maxChain),
                         [Say(OPERATOR, [a]), Take(0), Say(OPERATOR, [b]), Fail(0)]);
            Unserved(w) && w.room.next == b
  {
    var s1, s2, s3, s4 := Say(OPERATOR, [a]), Take(0), Say(OPERATOR, [b]), Fail(0);
    var w0 := Start([a, b], OPERATOR, maxChain);
    var w1 := Apply(w0, s1);
    assert w1.room.next == a && w1.drivers == map[0 := AtTop] && w1.room.running;
    var w2 := Apply(w1, s2);
    assert w2.room.speaking == a && w2.drivers == map[0 := InFlight(a)] && w2.room.running;
    var w3 := Apply(w2, s3);
    assert w3.room.next == b && w3.drivers == w2.drivers;
    var w4 := Apply(w3, s4);
    assert w4.drivers == map[] && w4.room.next == b;
    hide Apply;
    assert [s1, s2, s3, s4][..3] == [s1, s2, s3] && [s1, s2, s3][..2] == [s1, s2] && [s1, s2][..1] == [s1];
    assert [s1][..0] == [];
    assert Run(w0, []) == w0;
    assert Run(w0, [s1]) == w1;
    assert Run(w0, [s1, s2]) == w2;
    assert Run(w0, [s1, s2, s3]) == w3;
  }

  // ----- Who speaks after a restart -----

  /** Whom the last turn leaves the floor to; a failed turn leaves it to whoever
      failed. */
  function Due(r: Room): string {
    if r.transcript == [] then ""
    else
      var last := r.transcript[|r.transcript| - 1];
      if last.failed then last.speaker else After(r, last)
  }

  predicate LastFailed(r: Room) {
    r.transcript != [] && r.transcript[|r.transcript| - 1].failed
  }

  /** The floor is due to whoever is next or speaking, unless the room parked. */
  predicate FloorDue(r: Room) {
    && (LastFailed(r) ==> Due(r) in r.participants)
    && (r.next == "" || r.next == Due(r)) && (r.speaking == "" || r.speaking == Due(r))
    && (r.next == "" && r.speaking == "" ==> Due(r) == "" || r.chain >= r.maxChain || LastFailed(r))
  }

  predicate StopLogged(w: World) {
    StatusRec(Stopped) in w.log
  }

  /** A message that comes while an agent speaks leaves the floor to that agent. */
  predicate Calm(w: World, step: Step) {
    step.Say? && w.room.speaking != "" && Accepted(w, step.mentions) ==>
      After(w.room, Turn(step.speaker, step.mentions, false)) == w.room.speaking
  }

  lemma RestartDue(w: World)
    requires Logged(w) && (LastFailed(w.room) ==> Due(w.room) in w.room.participants)
    ensures var r := Apply(w, Restart).room;
            && r.next == (if StopLogged(w) then "" else Due(w.room)) && r.speaking == ""
            && (StopLogged(w) <==> r.status == Stopped)
            && r.transcript == w.room.transcript && r.participants == w.room.participants
              && r.organizer == w.room.organizer
  {
    hide Load, SeenBy;
  }

  lemma RestartedRoom(w: World)
    requires Named(w) && MentionsKnown(w) && Logged(w)
    ensures var w' := Apply(w, Restart);
            && w'.drivers == map[] && !w'.room.running && w'.room.speaking == "" && w'.room.chain == 0
            && w'.room.status == if StopLogged(w) then Stopped else if w'.room.next == "" then Waiting else Active
  {
    var t := w.room.transcript;
    if t != [] && t[|t| - 1].mentions != [] {
      assert t[|t| - 1] in t && t[|t| - 1].mentions[0] in t[|t| - 1].mentions;
    }
    hide Load, SeenBy;
  }

  /** Kill the process after any run: the restored room is at work exactly when somebody
      is next, so that it is resumed, and starts a new chain. */
  lemma RestartedRoomIsActiveIff(participants: seq<string>, organizer: string, maxChain: int, steps: seq<Step>)
    requires Proper(NewRoom(participants, organizer, maxChain))
    ensures var w := Run(Start(participants, organizer, maxChain), steps);
            var w' := Apply(w, Restart);
            && w'.drivers == map[] && w'.room.speaking == "" && w'.room.chain == 0
            && w'.room.status == if StopLogged(w) then Stopped else if w'.room.next == "" then Waiting else Active
  {
    EveryRunKeepsInv(participants, organizer, maxChain, steps);
    hide Run, Apply, Logged, StopLogged, MentionsKnown, OneDriver, ChainBounded, Named;
    RestartedRoom(Run(Start(participants, organizer, maxChain), steps));
  }

  lemma RestartFloor(w: World)
    requires Logged(w) && !StopLogged(w) && FloorDue(w.room)
    ensures FloorDue(Apply(w, Restart).room)
  {
    RestartDue(w);
    hide Apply, Logged, StopLogged;
  }

  lemma SayKeepsFloor(w: World, speaker: string, mentions: seq<string>)
    requires Inv(w) && FloorDue(w.room) && Calm(w, Say(speaker, mentions))
    ensures FloorDue(Apply(w, Say(speaker, mentions)).room)
  {
    if !Accepted(w, mentions) { assert Apply(w, Say(speaker, mentions)) == w; }
  }

  lemma OtherStepKeepsFloor(w: World, step: Step)
    requires Inv(w) && w.room.status != Stopped && FloorDue(w.room) && !step.Restart? && !step.Say? && !step.Stop?
    ensures FloorDue(Apply(w, step).room)
  {
    if step.Take? && step.d in w.drivers { assert w.room.running; }
  }

  ghost predicate AlwaysCalm(w: World, steps: seq<Step>) {
    steps == [] || (AlwaysCalm(w, steps[..|steps| - 1]) && Calm(Run(w, steps[..|steps| - 1]), steps[|steps| - 1]))
  }

  lemma StopLoggedStays(w: World, step: Step)
    ensures StopLogged(w) || step.Stop? <==> StopLogged(Apply(w, step))
  {
    assert step.Stop? ==> StatusRec(Stopped) in w.log + [StatusRec(Stopped)];
  }

  lemma NotStopped(w: World)
    requires Logged(w) && !StopLogged(w)
    ensures w.room.status != Stopped
  {
    hide Load;
  }

  lemma {:induction false} EveryCalmRunKeepsFloor(
      participants: seq<string>, organizer: string, maxChain: int, steps: seq<Step>)
    requires Proper(NewRoom(participants, organizer, maxChain))
    requires AlwaysCalm(Start(participants, organizer, maxChain), steps)
    ensures var w := Run(Start(participants, organizer, maxChain), steps); StopLogged(w) || FloorDue(w.room)
  {
    hide Inv, Logged, MentionsKnown, Apply, Calm, StopLogged;
    if steps != [] {
      var prefix, last := steps[..|steps| - 1], steps[|steps| - 1];
      EveryCalmRunKeepsFloor(participants, organizer, maxChain, prefix);
      EveryRunKeepsInv(participants, organizer, maxChain, prefix);
      hide FloorDue;
      var w := Run(Start(participants, organizer, maxChain), prefix);
      StopLoggedStays(w, last);
      if !StopLogged(w) && !last.Stop? {
        NotStopped(w);
        match last
        case Restart => RestartFloor(w);
        case Say(speaker, mentions) => SayKeepsFloor(w, speaker, mentions);
        case _ => OtherStepKeepsFloor(w, last);
      }
    }
  }

  lemma {:induction false} StopLoggedIff(participants: seq<string>, organizer: string, maxChain: int, steps: seq<Step>)
    ensures StopLogged(Run(Start(participants, organizer, maxChain), steps)) <==> Stop in steps
  {
    hide Apply;
    if steps != [] {
      var prefix, last := steps[..|steps| - 1], steps[|steps| - 1];
      StopLoggedIff(participants, organizer, maxChain, prefix);
      StopLoggedStays(Run(Start(participants, organizer, maxChain), prefix), last);
      assert steps == prefix + [last];
      hide StopLogged;
    }
  }

  /** Kill the process after any step of such a run. If the room was ever stopped it
      comes back stopped, with nobody next. Otherwise the restored room gives the
      floor to whoever was next or was speaking. If nobody was, it gives it to nobody,
      unless the room had parked: then a participant whose turn failed is retried, and
      a chain cut off by its budget goes on with whomever its last turn addressed. */
  lemma RestartRestoresTheFloor(participants: seq<string>, organizer: string, maxChain: int, steps: seq<Step>)
    requires Proper(NewRoom(participants, organizer, maxChain))
    requires AlwaysCalm(Start(participants, organizer, maxChain), steps)
    ensures var w := Run(Start(participants, organizer, maxChain), steps);
            var r, restored := w.room, Apply(w, Restart).room;
            if Stop in steps then restored.status == Stopped && restored.next == ""
            else
              && restored.status != Stopped
              && (r.next != "" ==> restored.next == r.next)
              && (r.speaking != "" ==> restored.next == r.speaking)
              && (r.next == "" && r.speaking == "" && !LastFailed(r) && r.chain < r.maxChain ==> restored.next == "")
              && (r.next == "" && r.speaking == "" && LastFailed(r) ==>
                    restored.next == r.transcript[|r.transcript| - 1].speaker)
              && (r.next == "" && r.speaking == "" && r.chain >= r.maxChain ==> restored.next == Due(r))
  {
    EveryCalmRunKeepsFloor(participants, organizer, maxChain, steps);
    EveryRunKeepsInv(participants, organizer, maxChain, steps);
    StopLoggedIff(participants, organizer, maxChain, steps);
    hide Run, Apply, Logged, Inv, AlwaysCalm, Calm, StopLogged;
    var w := Run(Start(participants, organizer, maxChain), steps);
    if StopLogged(w) { StopSurvivesRestart(w); } else { RestartDue(w); }
  }

  /** A stop, once logged, is what every restart comes back to. */
  lemma StopSurvivesRestart(w: World)
    requires Logged(w) && StopLogged(w)
    ensures var r := Apply(w, Restart).room; r.status == Stopped && r.next == ""
  {
    hide Load;
  }

  /** The calm is exact: a message taken while an agent speaks keeps the floor for
      that agent across a restart if and only if it addresses the agent itself, by
      its first mention or for want of one. */
  lemma MidTurnMessageKeepsTheSpeakerIff(w: World, speaker: string, mentions: seq<string>)
    requires Inv(w) && Logged(w) && !StopLogged(w) && w.room.speaking != "" && Accepted(w, mentions)
    ensures Apply(Apply(w, Say(speaker, mentions)), Restart).room.next == w.room.speaking <==>
            After(w.room, Turn(speaker, mentions, false)) == w.room.speaking
  {
    var t := Turn(speaker, mentions, false);
    var w' := Apply(w, Say(speaker, mentions));
    assert w'.room.transcript == w.room.transcript + [t] && w'.room.organizer == w.room.organizer;
    assert Due(w'.room) == After(w.room, t) && !LastFailed(w'.room);
    StepKeepsLogged(w, Say(speaker, mentions));
    StopLoggedStays(w, Say(speaker, mentions));
    hide Apply, Logged, Inv, StopLogged, Accepted, Due, LastFailed;
    RestartDue(w');
  }

  /** A run in which it does not: a message to nobody hides from the log that an
      agent has the floor. */
  lemma MidTurnMessageHidesTheSpeaker(a: string, maxChain: int)
    requires a != "" && maxChain > 0
    ensures var w := Apply(Apply(Apply(Start([a], OPERATOR, maxChain), Say(OPERATOR, [a])), Take(0)),
            Say(OPERATOR, []));
            w.room.speaking == a && Apply(w, Restart).room.next == ""
  {
    var w0 := Start([a], OPERATOR, maxChain);
    var w1 := Apply(w0, Say(OPERATOR, [a]));
    var w2 := Apply(w1, Take(0));
    var w3 := Apply(w2, Say(OPERATOR, []));
    StartInv([a], OPERATOR, maxChain);
    StepKeepsLogged(w0, Say(OPERATOR, [a]));
    StepKeepsLogged(w1, Take(0));
    StepKeepsLogged(w2, Say(OPERATOR, []));
    hide Load;
    assert w1.drivers == map[0 := AtTop] && w1.room.next == a;
    assert w2.room.speaking == a && w2.room.status == Active;
    assert w3.room.transcript[|w3.room.transcript| - 1] == Turn(OPERATOR, [], false);
  }

  // ----- The room object -----

  lemma SeenNone(was: map<string, nat>, transcript: seq<Turn>)
    ensures was + SeenMap([], transcript) == was
  {
  }

  lemma SeenOneMore(was: map<string, nat>, ps: seq<string>, p: string, transcript: seq<Turn>)
    ensures was + SeenMap(ps + [p], transcript) == (was + SeenMap(ps, transcript))[p := SeenBy(transcript, p)]
  {
    assert SeenMap(ps + [p], transcript) == SeenMap(ps, transcript)[p := SeenBy(transcript, p)];
    hide SeenMap;
    MergeOneMore(was, SeenMap(ps, transcript), p, SeenBy(transcript, p));
  }

  lemma MergeOneMore(was: map<string, nat>, more: map<string, nat>, p: string, n: nat)
    ensures was + more[p := n] == (was + more)[p := n]
  {
  }

  class RelayRoom {
    const participants: seq<string>
    const organizer: string
    const maxChain: int
    var transcript: seq<Turn>
    var status: Status
    var next: string
    var speaking: string
    var lastSeen: map<string, nat>
    var chain: nat
    var running: bool

    ghost function View(): Room
      reads this
    {
      Room(participants, organizer, maxChain, transcript, status, next, speaking, lastSeen, chain, running)
    }

    constructor (participants: seq<string>, organizer: string, maxChain: int)
      ensures View() == NewRoom(participants, organizer, maxChain)
    {
      this.participants, this.organizer, this.maxChain := participants, organizer, maxChain;
      transcript, status, next, speaking, lastSeen, chain, running := [], Waiting, "", "", map[], 0, false;
    }

    method ScheduleNext(t: Turn)
      modifies this`next, this`status
      ensures View() == Schedule(old(View()), t)
    {
      if status == Stopped {
        next := "";
      } else if t.mentions != [] {
        next, status := t.mentions[0], Active;
      } else if organizer != OPERATOR && organizer != t.speaker {
        next, status := organizer, Active;
      } else {
        next, status := "", Waiting;
      }
    }

    /** Whether the message was taken, and whether a driver must be started. */
    method Say(speaker: string, mentions: seq<string>) returns (ok: bool, start: bool)
      modifies this
      ensures (View(), start) == Said(old(View()), speaker, mentions) && ok == (old(status) != Stopped)
    {
      if status == Stopped { return false, false; }
      var t := Turn(speaker, mentions, false);
      transcript, chain := transcript + [t], 0;
      ScheduleNext(t);
      ok, start := true, next != "" && !running;
      if start { running := true; }
    }

    method Stop()
      modifies this
      ensures View() == Halted(old(View()))
    {
      status, next := Stopped, "";
    }

    /** The driver's first critical section. */
    method TakeFloor() returns (who: Option<string>)
      modifies this
      ensures (View(), who) == Taken(old(View()))
    {
      if status == Stopped || next == "" {
        running := false;
        return None;
      }
      if chain >= maxChain {
        status, next, running := Waiting, "", false;
        return None;
      }
      who := Some(next);
      speaking := next;
      next := "";
    }

    /** Its second one, when the agent answered. */
    method Deliver(speaker: string, mentions: seq<string>)
      modifies this
      ensures View() == Replied(old(View()), speaker, mentions)
    {
      speaking := "";
      var t := Turn(speaker, mentions, false);
      transcript := transcript + [t];
      lastSeen := lastSeen[speaker := |transcript|];
      chain := chain + 1;
      ScheduleNext(t);
    }

    /** And when it did not. */
    method RecordFailure(speaker: string)
      modifies this
      ensures View() == Failed(old(View()), speaker)
    {
      speaking := "";
      transcript := transcript + [Turn(speaker, [], true)];
      status, running := Waiting, false;
    }

    method Resume() returns (start: bool)
      modifies this
      ensures (View(), start) == Resumed(old(View()))
    {
      start := status == Active && next != "" && !running;
      if start { running := true; }
    }

    /** One pass over the transcript: how far each speaker got. */
    method Seen() returns (seen: map<string, nat>)
      ensures forall p :: (if p in seen then seen[p] else 0) == SeenBy(transcript, p)
    {
      seen := map[];
      var i := 0;
      while i < |transcript|
        invariant i <= |transcript|
        invariant forall p :: (if p in seen then seen[p] else 0) == SeenBy(transcript[..i], p)
      {
        ghost var was := seen;
        var t := transcript[i];
        assert transcript[..i + 1] == transcript[..i] + [t];
        if !t.failed { seen := seen[t.speaker := i + 1]; }
        forall p ensures (if p in seen then seen[p] else 0) == SeenBy(transcript[..i + 1], p) {
          SeenSnoc(transcript[..i], t, p);
          assert (if p in was then was[p] else 0) == SeenBy(transcript[..i], p);
        }
        i := i + 1;
      }
      assert transcript[..i] == transcript;
    }

    method RestoreLastSeen()
      modifies this`lastSeen
      ensures View() == old(View()).(lastSeen := old(lastSeen) + SeenMap(participants, transcript))
    {
      var seen := Seen();
      ghost var was := lastSeen;
      var i := 0;
      SeenNone(was, transcript);
      while i < |participants|
        invariant i <= |participants|
        invariant lastSeen == was + SeenMap(participants[..i], transcript)
      {
        var p := participants[i];
        assert participants[..i + 1] == participants[..i] + [p];
        assert (if p in seen then seen[p] else 0) == SeenBy(transcript, p);
        SeenOneMore(was, participants[..i], p, transcript);
        lastSeen := lastSeen[p := if p in seen then seen[p] else 0];
        i := i + 1;
      }
      assert participants[..i] == participants;
    }

    method RecoverSchedule()
      modifies this
      ensures View() == Recovered(old(View()))
    {
      hide SeenMap;
      RestoreLastSeen();
      speaking, running, chain := "", false, 0;
      if status == Stopped || transcript == [] {
        if status != Stopped { status := Waiting; }
        next := "";
        return;
      }
      var last := transcript[|transcript| - 1];
      if last.failed {
        if last.speaker in participants {
          next, status := last.speaker, Active;
        } else {
          next, status := "", Waiting;
        }
        return;
      }
      status := Waiting;
      ScheduleNext(last);
    }
  }

  /** Reads one room's log; a log without a meta record is no room. */
  method LoadRoom(log: seq<Rec>) returns (room: Option<Room>)
    ensures room == if Load(log).Some? then Some(Recovered(Load(log).value)) else None
  {
    room := None;
    var i := 0;
    while i < |log|
      invariant i <= |log| && room == Load(log[..i])
    {
      assert log[..i + 1] == log[..i] + [log[i]];
      LoadSnoc(log[..i], log[i]);
      match log[i] {
        case Meta(participants, organizer, maxChain) => room := Some(NewRoom(participants, organizer, maxChain));
        case TurnRec(t) => if room.Some? { room := Some(room.value.(transcript := room.value.transcript + [t])); }
        case StatusRec(status) => if room.Some? { room := Some(room.value.(status := status)); }
      }
      i := i + 1;
    }
    assert log[..i] == log;
    if room.Some? { room := Some(Recovered(room.value)); }
  }
}
