/** The scheduler's supervisor: which agents run, which are wanted, which have
    scaled to zero, and who may hold which port, while starts, stops, crashes,
    wakes, restart timers and failed-wake rollbacks interleave. */
module Supervisors {
  import opened Ports
  import I = Instances

  datatype Proc = Proc(name: string, port: int, stopping: bool)

  /** The caller that started a process and waits for it to become healthy. After
      a failure it rolls back in two critical sections; `owned` says that the first
      of them found its process still published and marked it stopping. */
  datatype Waker = Watching | RollingBack(owned: bool)

  /** Processes are named by their position in `procs`; `exited` are those whose
      monitor has finished. `restarts` are the pending supervisor timers, by name. */
  datatype State = State(
    running: bool,
    range: Range,
    cursor: int,
    pinned: map<string, int>,
    agents: map<string, nat>,
    procs: seq<Proc>,
    exited: set<nat>,
    desired: map<string, int>,
    idle: set<string>,
    restarts: multiset<string>,
    wakers: map<nat, Waker>)

  /** What a start attempt meets outside the scheduler. */
  datatype Machine = Machine(probe: int -> Probe, spawns: bool)

  function RunningPorts(s: State, but: set<string>): set<int> {
    set n | n in s.agents && n !in but && s.agents[n] < |s.procs| :: s.procs[s.agents[n]].port
  }

  function DesiredPorts(s: State, but: set<string>): set<int> {
    set n | n in s.desired && n !in but && n !in s.idle :: s.desired[n]
  }

  function PinnedPorts(s: State, but: set<string>): set<int> {
    set n | n in s.pinned && n !in but && s.pinned[n] > 0 :: s.pinned[n]
  }

  /** Ports owned by scheduler state, the names in `but` not counted. */
  function Reserved(s: State, but: set<string>): set<int> {
    RunningPorts(s, but) + DesiredPorts(s, but) + PinnedPorts(s, but)
  }

  /** Port 0 asks for a dynamic port; any other port is taken as it is or not at all. */
  function Resolve(s: State, name: string, port: int, m: Machine): Scan {
    if port == 0 then ScanRange(s.range, s.cursor, Reserved(s, {}), m.probe)
    else if port in Reserved(s, {name}) then Scan(NoPorts, s.cursor)
    else if port < 0 || m.probe(port).Free? || m.probe(port).Stale? then Scan(Allocated(port), s.cursor)
    else Scan(Failed(port), s.cursor)
  }

  predicate Starts(s: State, name: string, port: int, m: Machine) {
    Resolve(s, name, port, m).outcome.Allocated? && m.spawns
  }

  /** startAgentLocked for a valid card. */
  function Start(s: State, name: string, port: int, m: Machine): State {
    var r := Resolve(s, name, port, m);
    var s' := s.(cursor := r.cursor);
    if !r.outcome.Allocated? || !m.spawns then s'
    else s'.(agents := s.agents[name := |s.procs|],
             procs := s.procs + [Proc(name, r.outcome.port, false)],
             desired := s.desired[name := r.outcome.port])
  }

  /** A start whose caller then waits for the new process to become healthy. */
  function StartWatched(s: State, name: string, port: int, m: Machine): State {
    var s' := Start(s, name, port, m);
    if Starts(s, name, port, m) then s'.(wakers := s.wakers[|s.procs| := Watching]) else s'
  }

  /** ensureAwakeOnce: only an idle-stopped agent is woken, on a fresh port. */
  function Wake(s: State, name: string, m: Machine): State {
    if !s.running || name in s.agents || name !in s.idle then s
    else
      var s' := StartWatched(s, name, 0, m);
      if Starts(s, name, 0, m) then s'.(idle := s.idle - {name}) else s'
  }

  /** EnsureAgent; `admit` is the verdict of its checks on the request, the card
      and the workspace. */
  function Ensure(s: State, name: string, port: int, admit: bool, m: Machine): State {
    if !s.running || !admit then s
    else if name !in s.desired then StartWatched(s, name, port, m)
    else if name in s.agents then s
    else if name in s.idle then Wake(s, name, m)
    else StartWatched(s, name, s.desired[name], m)
  }

  /** StartAgent, which the admin restart uses: it does not look at the idle set. */
  function DirectStart(s: State, name: string, port: int, m: Machine): State {
    if !s.running || name in s.agents then s else Start(s, name, port, m)
  }

  /** The start of a configured agent when the scheduler comes up. */
  function Boot(s: State, name: string, port: int, m: Machine): State {
    if !s.running || name in s.desired then s else Start(s, name, port, m)
  }

  /** startOrWakeInstance for an ordinal above zero. */
  function StartInstance(s: State, base: string, idx: int, m: Machine): State {
    var name := I.InstanceName(base, idx);
    if !s.running || idx <= 0 || name in s.agents then s
    else if name in s.idle then Wake(s, name, m)
    else if base !in s.desired then s
    else StartWatched(s, name, 0, m)
  }

  function Stop(s: State, name: string): State {
    var s' := s.(desired := s.desired - {name}, idle := s.idle - {name});
    if name in s.agents && s.agents[name] < |s.procs|
    then s'.(procs := s.procs[s.agents[name] := s.procs[s.agents[name]].(stopping := true)])
    else s'
  }

  /** The process the scheduler knows under its name is p. */
  predicate Published(s: State, p: nat) {
    p < |s.procs| && s.procs[p].name in s.agents && s.agents[s.procs[p].name] == p
  }

  /** monitorAgent after process p has ended. */
  function Exit(s: State, p: nat, idleExit: bool): State {
    if p >= |s.procs| || p in s.exited then s
    else
      var name := s.procs[p].name;
      if !Published(s, p) then s.(exited := s.exited + {p})
      else
        var s' := s.(exited := s.exited + {p}, agents := s.agents - {name});
        if s.procs[p].stopping || !s.running || name !in s.desired then s'
        else if idleExit then s'.(idle := s.idle + {name})
        else s'.(restarts := s.restarts + multiset{name})
  }

  /** A supervisor restart timer runs out. */
  function Restart(s: State, name: string, m: Machine): State {
    if name !in s.restarts then s
    else
      var s' := s.(restarts := s.restarts - multiset{name});
      if !s.running || name !in s.desired || name in s.agents || name in s.idle then s'
      else if Starts(s', name, s.desired[name], m) then Start(s', name, s.desired[name], m)
      else Start(s', name, s.desired[name], m).(restarts := s.restarts)
  }

  function Healthy(s: State, p: nat): State {
    if p in s.wakers && s.wakers[p].Watching? then s.(wakers := s.wakers - {p}) else s
  }

  /** rollbackFailedWake, first section. */
  function RollbackBegin(s: State, p: nat): State {
    if p !in s.wakers || !s.wakers[p].Watching? then s
    else if Published(s, p)
    then s.(procs := s.procs[p := s.procs[p].(stopping := true)], wakers := s.wakers[p := RollingBack(true)])
    else s.(wakers := s.wakers[p := RollingBack(false)])
  }

  /** rollbackFailedWake, second section: it waits for the monitor when it owned
      the process. */
  function RollbackEnd(s: State, p: nat): State {
    if p !in s.wakers || p >= |s.procs| || !s.wakers[p].RollingBack? || (s.wakers[p].owned && p !in s.exited) then s
    else
      var name := s.procs[p].name;
      var s' := s.(wakers := s.wakers - {p});
      if name in s.desired && s.running && name !in s.agents then s'.(idle := s.idle + {name}) else s'
  }

  function Shutdown(s: State): State {
    s.(running := false, agents := map[], desired := map[], idle := {})
  }

  // ----- The scheduler as the source keeps it -----

  class Scheduler {
    const ports: PortCursor
    const pinned: map<string, int>
    var running: bool
    var agents: map<string, nat>
    var procs: seq<Proc>
    var exited: set<nat>
    var desired: map<string, int>
    var idle: set<string>
    var restarts: multiset<string>
    var wakers: map<nat, Waker>

    ghost function View(): State
      reads this, ports
    {
      State(running, ports.range, ports.nextPort, pinned, agents, procs, exited, desired, idle, restarts, wakers)
    }

    /** Published processes are known ones. */
    predicate Valid()
      reads this
    {
      forall n :: n in agents ==> agents[n] < |procs|
    }

    constructor (range: Range, pinned: map<string, int>)
      ensures Valid() && View() == Initial(range, range.start, pinned)
    {
      ports := new PortCursor(range);
      this.pinned := pinned;
      running, agents, procs, exited, desired := true, map[], [], {}, map[];
      idle, restarts, wakers := {}, multiset{}, map[];
    }

    /** portReservedLocked and portReservedByOtherLocked. */
    method PortReserved(port: int, but: set<string>) returns (taken: bool)
      requires Valid()
      ensures taken <==> port in Reserved(View(), but)
    {
      taken := (exists n | n in agents :: n !in but && procs[agents[n]].port == port)
            || (exists n | n in desired :: n !in but && n !in idle && desired[n] == port)
            || (exists n | n in pinned :: n !in but && pinned[n] > 0 && pinned[n] == port);
      assert View().agents == agents;
    }

    method StartAgentLocked(name: string, port: int, m: Machine) returns (ok: bool)
      requires Valid()
      modifies this, ports
      ensures Valid() && View() == Start(old(View()), name, port, m) && ok == Starts(old(View()), name, port, m)
    {
      var p := port;
      if port == 0 {
        var taken := (set n | n in agents :: procs[agents[n]].port)
                   + (set n | n in desired && n !in idle :: desired[n])
                   + (set n | n in pinned && pinned[n] > 0 :: pinned[n]);
        assert taken == Reserved(View(), {});
        var outcome := ports.Find(taken, m.probe);
        if !outcome.Allocated? { return false; }
        p := outcome.port;
      } else {
        var taken := PortReserved(port, {name});
        if taken { return false; }
        if port > 0 && !m.probe(port).Free? && !m.probe(port).Stale? { return false; }
      }
      if !m.spawns { return false; }
      agents := agents[name := |procs|];
      procs := procs + [Proc(name, p, false)];
      desired := desired[name := p];
      return true;
    }

    method StartAndWatch(name: string, port: int, m: Machine) returns (ok: bool)
      requires Valid()
      modifies this, ports
      ensures Valid() && View() == StartWatched(old(View()), name, port, m) && ok == Starts(old(View()), name, port, m)
    {
      var p := |procs|;
      ok := StartAgentLocked(name, port, m);
      if ok {
        wakers := wakers[p := Watching];
      }
    }

    method StartAgent(name: string, port: int, m: Machine) returns (ok: bool)
      requires Valid()
      modifies this, ports
      ensures Valid() && View() == DirectStart(old(View()), name, port, m)
      ensures ok == (old(running) && name !in old(agents) && Starts(old(View()), name, port, m))
    {
      ok := false;
      if running && name !in agents { ok := StartAgentLocked(name, port, m); }
    }

    method EnsureAwakeOnce(name: string, m: Machine)
      requires Valid()
      modifies this, ports
      ensures Valid() && View() == Wake(old(View()), name, m)
    {
      if !running || name in agents || name !in idle { return; }
      var ok := StartAndWatch(name, 0, m);
      if ok {
        idle := idle - {name};
      }
    }

    method EnsureAgent(name: string, port: int, admit: bool, m: Machine)
      requires Valid()
      modifies this, ports
      ensures Valid() && View() == Ensure(old(View()), name, port, admit, m)
    {
      if !running || !admit { return; }
      if name in desired {
        if name in agents { return; }
        if name in idle {
          EnsureAwakeOnce(name, m);
          return;
        }
        var _ := StartAndWatch(name, desired[name], m);
        return;
      }
      var _ := StartAndWatch(name, port, m);
    }

    method StartOrWakeInstance(base: string, idx: int, m: Machine)
      requires Valid() && idx > 0
      modifies this, ports
      ensures Valid() && View() == StartInstance(old(View()), base, idx, m)
    {
      var name := I.InstanceName(base, idx);
      if !running || name in agents { return; }
      if name in idle {
        EnsureAwakeOnce(name, m);
        return;
      }
      if base !in desired { return; }
      var _ := StartAndWatch(name, 0, m);
    }

    method StopAgent(name: string)
      requires Valid()
      modifies this
      ensures Valid() && View() == Stop(old(View()), name)
    {
      desired := desired - {name};
      idle := idle - {name};
      if name !in agents { return; }
      var p := agents[name];
      procs := procs[p := procs[p].(stopping := true)];
    }

    method MonitorAgent(p: nat, idleExit: bool)
      requires Valid() && p < |procs| && p !in exited
      modifies this
      ensures Valid() && View() == Exit(old(View()), p, idleExit)
    {
      exited := exited + {p};
      var name := procs[p].name;
      if name !in agents || agents[name] != p { return; }
      agents := agents - {name};
      if procs[p].stopping || !running { return; }
      if name !in desired { return; }
      if idleExit {
        idle := idle + {name};
        return;
      }
      restarts := restarts + multiset{name};
    }

    method RestartTimer(name: string, m: Machine)
      requires Valid() && name in restarts
      modifies this, ports
      ensures Valid() && View() == Restart(old(View()), name, m)
    {
      restarts := restarts - multiset{name};
      if !running || name !in desired || name in agents || name in idle { return; }
      var ok := StartAgentLocked(name, desired[name], m);
      if !ok {
        restarts := restarts + multiset{name};
        assert restarts == old(restarts);
      }
    }

    method BeginRollback(p: nat)
      requires Valid() && p in wakers && wakers[p].Watching? && p < |procs|
      modifies this
      ensures Valid() && View() == RollbackBegin(old(View()), p)
    {
      var name := procs[p].name;
      var current := name in agents && agents[name] == p;
      if current {
        procs := procs[p := procs[p].(stopping := true)];
      }
      wakers := wakers[p := RollingBack(current)];
    }

    method EndRollback(p: nat)
      requires Valid() && p in wakers && wakers[p].RollingBack? && p < |procs| && (wakers[p].owned ==> p in exited)
      modifies this
      ensures Valid() && View() == RollbackEnd(old(View()), p)
    {
      var name := procs[p].name;
      wakers := wakers - {p};
      if name in desired && running && name !in agents {
        idle := idle + {name};
      }
    }
  }

  datatype Step =
    | DoBoot(name: string, port: int, m: Machine)
    | DoEnsure(name: string, port: int, admit: bool, m: Machine)
    | DoStart(name: string, port: int, m: Machine)
    | DoWake(name: string, m: Machine)
    | DoStartInstance(base: string, idx: int, m: Machine)
    | DoStop(name: string)
    | DoExit(p: nat, idleExit: bool)
    | DoRestart(name: string, m: Machine)
    | DoHealthy(p: nat)
    | DoRollbackBegin(p: nat)
    | DoRollbackEnd(p: nat)
    | DoShutdown

  function Apply(s: State, step: Step): State {
    match step
    case DoBoot(name, port, m) => Boot(s, name, port, m)
    case DoEnsure(name, port, admit, m) => Ensure(s, name, port, admit, m)
    case DoStart(name, port, m) => DirectStart(s, name, port, m)
    case DoWake(name, m) => Wake(s, name, m)
    case DoStartInstance(base, idx, m) => StartInstance(s, base, idx, m)
    case DoStop(name) => Stop(s, name)
    case DoExit(p, idleExit) => Exit(s, p, idleExit)
    case DoRestart(name, m) => Restart(s, name, m)
    case DoHealthy(p) => Healthy(s, p)
    case DoRollbackBegin(p) => RollbackBegin(s, p)
    case DoRollbackEnd(p) => RollbackEnd(s, p)
    case DoShutdown => Shutdown(s)
  }

  function Run(s: State, steps: seq<Step>): State {
    if steps == [] then s else Apply(Run(s, steps[..|steps| - 1]), steps[|steps| - 1])
  }

  function Initial(range: Range, cursor: int, pinned: map<string, int>): State {
    State(true, range, cursor, pinned, map[], [], {}, map[], {}, multiset{}, map[])
  }

  // ----- What every run keeps -----

  predicate Shape(s: State) {
    && (forall n :: n in s.agents ==>
      s.agents[n] < |s.procs| && s.procs[s.agents[n]].name == n && s.agents[n] !in s.exited)
    && (forall n :: n in s.agents && n in s.desired ==> s.desired[n] == s.procs[s.agents[n]].port)
    && (forall n :: n in s.desired ==> s.desired[n] != 0)
    && (forall p :: p in s.wakers ==> p < |s.procs|)
    && (forall p :: p in s.exited ==> p < |s.procs|)
    && (!s.running ==> s.desired == map[])
  }

  /** Scaled to zero means wanted and not running. */
  predicate IdleSound(s: State) {
    forall n :: n in s.idle ==> n in s.desired && n !in s.agents
  }

  /** Running, or wanted and not scaled to zero: such a name keeps its port. */
  predicate Holds(s: State, n: string) {
    n in s.agents || (n in s.desired && n !in s.idle)
  }

  function PortOf(s: State, n: string): int
    requires Shape(s) && Holds(s, n)
  {
    if n in s.agents then s.procs[s.agents[n]].port else s.desired[n]
  }

  ghost predicate PortsSound(s: State)
    requires Shape(s)
  {
    && (forall n, o :: Holds(s, n) && Holds(s, o) && n != o ==> PortOf(s, n) != PortOf(s, o))
    && (forall n, o :: Holds(s, n) && o in s.pinned && s.pinned[o] > 0 && n != o ==> PortOf(s, n) != s.pinned[o])
  }

  ghost predicate RollbackPending(s: State, n: string) {
    exists p :: p in s.wakers && s.wakers[p].RollingBack? && p < |s.procs| && s.procs[p].name == n
  }

  /** A wanted agent whose published process is being stopped is inside the
      rollback that stops it. */
  predicate StoppersSound(s: State) {
    forall n :: n in s.agents && n in s.desired && s.agents[n] < |s.procs| && s.procs[s.agents[n]].stopping ==>
      s.agents[n] in s.wakers && s.wakers[s.agents[n]] == RollingBack(true)
  }

  /** No wanted agent is dropped. */
  ghost predicate Accounted(s: State, n: string) {
    || (n in s.agents && s.agents[n] < |s.procs| && !s.procs[s.agents[n]].stopping)
    || n in s.idle
    || n in s.restarts
    || RollbackPending(s, n)
  }

  ghost predicate NothingDropped(s: State) {
    forall n :: n in s.desired ==> Accounted(s, n)
  }

  ghost predicate Inv(s: State) {
    Shape(s) && IdleSound(s) && PortsSound(s) && StoppersSound(s) && NothingDropped(s)
  }

  // ----- A start takes a port nobody else holds -----

  lemma HolderIsReserved(s: State, n: string, but: set<string>)
    requires Shape(s) && Holds(s, n) && n !in but
    ensures PortOf(s, n) in Reserved(s, but)
  {
    if n in s.agents {
      assert PortOf(s, n) in RunningPorts(s, but);
    } else {
      assert PortOf(s, n) in DesiredPorts(s, but);
    }
  }

  lemma PinnedIsReserved(s: State, n: string, but: set<string>)
    requires n in s.pinned && s.pinned[n] > 0 && n !in but
    ensures s.pinned[n] in Reserved(s, but)
  {
    assert s.pinned[n] in PinnedPorts(s, but);
  }

  lemma ResolvedPortIsFree(s: State, name: string, port: int, m: Machine)
    requires Shape(s) && Resolve(s, name, port, m).outcome.Allocated?
    ensures var p := Resolve(s, name, port, m).outcome.port;
            && p != 0
            && (forall n :: Holds(s, n) && n != name ==> PortOf(s, n) != p)
            && (forall n :: n in s.pinned && s.pinned[n] > 0 && n != name ==> s.pinned[n] != p)
  {
    hide Reserved, ScanFrom;
    var p := Resolve(s, name, port, m).outcome.port;
    var but: set<string> := if port == 0 then {} else {name};
    if port == 0 {
      ScanSucceedsIff(s.range, s.cursor, Reserved(s, {}), m.probe);
    }
    assert p !in Reserved(s, but);
    forall n | Holds(s, n) && n != name ensures PortOf(s, n) != p { HolderIsReserved(s, n, but); }
    forall n | n in s.pinned && s.pinned[n] > 0 && n != name ensures s.pinned[n] != p { PinnedIsReserved(s, n, but); }
  }

  /** What a successful start does, with the port it found left abstract. */
  function Publish(s: State, name: string, port: int, cursor: int): State {
    s.(cursor := cursor,
       agents := s.agents[name := |s.procs|],
       procs := s.procs + [Proc(name, port, false)],
       desired := s.desired[name := port])
  }

  lemma StartPublishes(s: State, name: string, port: int, m: Machine)
    ensures var r := Resolve(s, name, port, m);
            Start(s, name, port, m) == if Starts(s, name, port, m) then Publish(s, name, r.outcome.port, r.cursor)
              else s.(cursor := r.cursor)
  {
  }

  lemma PublishKeepsPorts(s: State, name: string, port: int, cursor: int)
    requires Shape(s) && PortsSound(s) && port != 0 && s.running
    requires forall n :: Holds(s, n) && n != name ==> PortOf(s, n) != port
    requires forall n :: n in s.pinned && s.pinned[n] > 0 && n != name ==> s.pinned[n] != port
    ensures Shape(Publish(s, name, port, cursor)) && PortsSound(Publish(s, name, port, cursor))
  {
    var s' := Publish(s, name, port, cursor);
    assert Shape(s');
    assert PortOf(s', name) == port;
    assert forall n :: n != name ==> (Holds(s', n) <==> Holds(s, n));
    assert forall n :: n != name && Holds(s, n) ==> PortOf(s', n) == PortOf(s, n);
  }

  lemma PublishKeepsAccounts(s: State, name: string, port: int, cursor: int)
    requires Shape(s) && StoppersSound(s) && NothingDropped(s)
    ensures StoppersSound(Publish(s, name, port, cursor)) && NothingDropped(Publish(s, name, port, cursor))
  {
    var s' := Publish(s, name, port, cursor);
    forall n | n in s'.desired ensures Accounted(s', n) {
      if n != name { KeepsAccount(s, s', n); }
    }
  }

  lemma PortsShrink(s: State, s': State)
    requires Shape(s) && Shape(s') && PortsSound(s) && s'.pinned == s.pinned
    requires forall n :: Holds(s', n) ==> Holds(s, n) && PortOf(s', n) == PortOf(s, n)
    ensures PortsSound(s')
  {
  }

  /** Enough of the old state survives for n's account to survive. */
  lemma KeepsAccount(s: State, s': State, n: string)
    requires Accounted(s, n)
    requires |s.procs| <= |s'.procs| && forall p :: 0 <= p < |s.procs| ==> s'.procs[p].name == s.procs[p].name
    requires n in s.agents && s.agents[n] < |s.procs| && !s.procs[s.agents[n]].stopping ==>
               (n in s'.agents && s'.agents[n] < |s'.procs| && !s'.procs[s'.agents[n]].stopping) || n in s'.idle
                 || n in s'.restarts
    requires n in s.idle ==> n in s'.idle
    requires n in s.restarts ==> n in s'.restarts
    requires forall p :: p in s.wakers && s.wakers[p].RollingBack? && p < |s.procs| && s.procs[p].name == n ==>
             p in s'.wakers && s'.wakers[p].RollingBack?
    ensures Accounted(s', n)
  {
    if RollbackPending(s, n) {
      var p :| p in s.wakers && s.wakers[p].RollingBack? && p < |s.procs| && s.procs[p].name == n;
      assert p in s'.wakers && s'.procs[p].name == n;
    }
  }

  lemma CursorKeepsInv(s: State, cursor: int)
    requires Inv(s)
    ensures Inv(s.(cursor := cursor))
  {
    var s' := s.(cursor := cursor);
    assert forall n :: Holds(s', n) <==> Holds(s, n);
    assert forall n :: Holds(s, n) ==> PortOf(s', n) == PortOf(s, n);
    forall n | n in s'.desired ensures Accounted(s', n) { KeepsAccount(s, s', n); }
  }

  // ----- Each step keeps the invariant -----

  lemma StartKeepsInv(s: State, name: string, port: int, m: Machine)
    requires Inv(s) && name !in s.idle && s.running
    ensures Inv(Start(s, name, port, m))
  {
    hide Resolve, Start;
    StartPublishes(s, name, port, m);
    var r := Resolve(s, name, port, m);
    if Starts(s, name, port, m) {
      ResolvedPortIsFree(s, name, port, m);
      PublishKeepsPorts(s, name, r.outcome.port, r.cursor);
      PublishKeepsAccounts(s, name, r.outcome.port, r.cursor);
    } else {
      CursorKeepsInv(s, r.cursor);
    }
  }

  lemma WatchKeepsInv(s: State, p: nat)
    requires Inv(s) && p < |s.procs| && p !in s.wakers
    ensures Inv(s.(wakers := s.wakers[p := Watching]))
  {
    var s' := s.(wakers := s.wakers[p := Watching]);
    assert forall n :: Holds(s', n) <==> Holds(s, n);
    assert forall n :: Holds(s, n) ==> PortOf(s', n) == PortOf(s, n);
    forall n | n in s'.desired ensures Accounted(s', n) { KeepsAccount(s, s', n); }
  }

  lemma StartWatchedKeepsInv(s: State, name: string, port: int, m: Machine)
    requires Inv(s) && name !in s.idle && s.running
    ensures Inv(StartWatched(s, name, port, m))
  {
    StartKeepsInv(s, name, port, m);
    StartPublishes(s, name, port, m);
    hide Resolve, Start, Inv;
    if Starts(s, name, port, m) {
      assert |s.procs| !in s.wakers by { WakersAreKnown(s); }
      WatchKeepsInv(Start(s, name, port, m), |s.procs|);
    }
  }

  lemma WakersAreKnown(s: State)
    requires Inv(s)
    ensures |s.procs| !in s.wakers
  {
  }

  lemma UnidleKeepsInv(s: State, name: string)
    requires Shape(s) && PortsSound(s) && StoppersSound(s) && NothingDropped(s)
    requires forall n :: n in s.idle && n != name ==> n in s.desired && n !in s.agents
    requires name in s.agents && !s.procs[s.agents[name]].stopping
    ensures Inv(s.(idle := s.idle - {name}))
  {
    var s' := s.(idle := s.idle - {name});
    assert forall n :: Holds(s', n) <==> Holds(s, n);
    assert forall n :: Holds(s, n) ==> PortOf(s', n) == PortOf(s, n);
    forall n | n in s'.desired ensures Accounted(s', n) {
      if n != name { KeepsAccount(s, s', n); }
    }
  }

  lemma WakeKeepsInv(s: State, name: string, m: Machine)
    requires Inv(s)
    ensures Inv(Wake(s, name, m))
  {
    if s.running && name !in s.agents && name in s.idle {
      hide Resolve, Start;
      StartPublishes(s, name, 0, m);
      var r := Resolve(s, name, 0, m);
      if Starts(s, name, 0, m) {
        ResolvedPortIsFree(s, name, 0, m);
        PublishKeepsPorts(s, name, r.outcome.port, r.cursor);
        PublishKeepsAccounts(s, name, r.outcome.port, r.cursor);
        var s' := Publish(s, name, r.outcome.port, r.cursor);
        UnidleKeepsInv(s', name);
        WatchKeepsInv(s'.(idle := s.idle - {name}), |s.procs|);
      } else {
        CursorKeepsInv(s, r.cursor);
      }
    }
  }

  /** A stop marks a process at most: it has its name and its port still. */
  lemma StopFrame(s: State, name: string)
    ensures var t := Stop(s, name);
            && t == s.(procs := t.procs, desired := s.desired - {name}, idle := s.idle - {name})
            && |t.procs| == |s.procs|
            && forall p: nat :: p < |s.procs| ==>
                 t.procs[p].name == s.procs[p].name && t.procs[p].port == s.procs[p].port
  {
  }

  lemma StopKeepsShape(s: State, name: string)
    requires Shape(s)
    ensures Shape(Stop(s, name))
  {
    hide Stop;
    StopFrame(s, name);
    var t := Stop(s, name);
    forall n | n in t.agents
      ensures t.agents[n] < |t.procs| && t.procs[t.agents[n]].name == n && t.agents[n] !in t.exited
      ensures n in t.desired ==> t.desired[n] == t.procs[t.agents[n]].port
    {
      assert n in s.agents;
    }
  }

  lemma StopKeepsIdle(s: State, name: string)
    requires Shape(s) && IdleSound(s) && StoppersSound(s)
    ensures IdleSound(Stop(s, name)) && StoppersSound(Stop(s, name))
  {
  }

  lemma StopKeepsPorts(s: State, name: string)
    requires Shape(s) && Shape(Stop(s, name))
    ensures forall n :: Holds(Stop(s, name), n) ==> Holds(s, n) && PortOf(Stop(s, name), n) == PortOf(s, n)
  {
  }

  lemma StopKeepsInv(s: State, name: string)
    requires Inv(s)
    ensures Inv(Stop(s, name))
  {
    hide PortsSound, NothingDropped, Shape, IdleSound, StoppersSound, PortOf, Holds;
    StopKeepsShape(s, name);
    StopKeepsIdle(s, name);
    StopKeepsPorts(s, name);
    PortsShrink(s, Stop(s, name));
    StopKeepsAccounts(s, name);
  }

  lemma StopKeepsAccounts(s: State, name: string)
    requires Shape(s) && NothingDropped(s)
    ensures NothingDropped(Stop(s, name))
  {
    hide RollbackPending;
    forall n | n in Stop(s, name).desired ensures Accounted(Stop(s, name), n) { KeepsAccount(s, Stop(s, name), n); }
  }

  lemma UnpublishKeepsShape(s: State, s': State, p: nat)
    requires Shape(s) && p < |s.procs| && s'.exited == s.exited + {p}
    requires s'.procs == s.procs && s'.desired == s.desired && s'.wakers == s.wakers && s'.running == s.running
    requires forall n :: n in s'.agents ==> n in s.agents && s'.agents[n] == s.agents[n] && s.agents[n] != p
    ensures Shape(s')
  {
  }

  /** The fields Exit touches, one by one. */
  lemma ExitFrame(s: State, p: nat, idleExit: bool)
    ensures var s' := Exit(s, p, idleExit);
            && s'.procs == s.procs && s'.desired == s.desired && s'.wakers == s.wakers && s'.running == s.running
              && s'.pinned == s.pinned
            && (s' != s ==>
                  && p < |s.procs| && p !in s.exited && s'.exited == s.exited + {p}
                  && s'.agents == (if Published(s, p) then s.agents - {s.procs[p].name} else s.agents)
                  && var crash := Published(s, p) && !s.procs[p].stopping && s.running && s.procs[p].name in s.desired;
                  && s'.idle == (if crash && idleExit then s.idle + {s.procs[p].name} else s.idle)
                  && s'.restarts == (if crash && !idleExit then s.restarts + multiset{s.procs[p].name} else s.restarts))
  {
  }

  lemma ExitKeepsShape(s: State, p: nat, idleExit: bool)
    requires Shape(s)
    ensures Shape(Exit(s, p, idleExit))
  {
    hide Exit;
    ExitFrame(s, p, idleExit);
    if Exit(s, p, idleExit) != s {
      assert forall n :: n in s.agents && s.agents[n] == p ==> n == s.procs[p].name;
      UnpublishKeepsShape(s, Exit(s, p, idleExit), p);
    }
  }

  lemma ExitKeepsIdle(s: State, p: nat, idleExit: bool)
    requires Shape(s) && IdleSound(s) && StoppersSound(s)
    ensures IdleSound(Exit(s, p, idleExit)) && StoppersSound(Exit(s, p, idleExit))
  {
    hide Exit;
    ExitFrame(s, p, idleExit);
  }

  lemma ExitKeepsPorts(s: State, p: nat, idleExit: bool)
    requires Shape(s) && Shape(Exit(s, p, idleExit))
    ensures forall n :: Holds(Exit(s, p, idleExit), n) ==>
            Holds(s, n) && PortOf(Exit(s, p, idleExit), n) == PortOf(s, n)
  {
    hide Exit;
    ExitFrame(s, p, idleExit);
  }

  lemma ExitKeepsInv(s: State, p: nat, idleExit: bool)
    requires Inv(s)
    ensures Inv(Exit(s, p, idleExit))
  {
    hide PortsSound, NothingDropped, Shape, IdleSound, StoppersSound, PortOf, Holds;
    ExitKeepsShape(s, p, idleExit);
    ExitKeepsIdle(s, p, idleExit);
    ExitKeepsPorts(s, p, idleExit);
    PortsShrink(s, Exit(s, p, idleExit));
    ExitKeepsAccounts(s, p, idleExit);
  }

  lemma ExitKeepsAccounts(s: State, p: nat, idleExit: bool)
    requires Shape(s) && NothingDropped(s)
    ensures NothingDropped(Exit(s, p, idleExit))
  {
    hide RollbackPending, Exit;
    ExitFrame(s, p, idleExit);
    var s' := Exit(s, p, idleExit);
    forall n | n in s'.desired ensures Accounted(s', n) { KeepsAccount(s, s', n); }
  }

  lemma RollbackBeginKeepsShape(s: State, p: nat)
    requires Shape(s)
    ensures Shape(RollbackBegin(s, p))
  {
  }

  lemma RollbackBeginKeepsIdle(s: State, p: nat)
    requires Shape(s) && IdleSound(s) && StoppersSound(s)
    ensures IdleSound(RollbackBegin(s, p)) && StoppersSound(RollbackBegin(s, p))
  {
  }

  lemma RollbackBeginKeepsPorts(s: State, p: nat)
    requires Shape(s) && Shape(RollbackBegin(s, p))
    ensures forall n :: Holds(RollbackBegin(s, p), n) ==> Holds(s, n) && PortOf(RollbackBegin(s, p), n) == PortOf(s, n)
  {
  }

  lemma RollbackBeginKeepsInv(s: State, p: nat)
    requires Inv(s)
    ensures Inv(RollbackBegin(s, p))
  {
    hide PortsSound, NothingDropped, Shape, IdleSound, StoppersSound, PortOf, Holds;
    RollbackBeginKeepsShape(s, p);
    RollbackBeginKeepsIdle(s, p);
    RollbackBeginKeepsPorts(s, p);
    PortsShrink(s, RollbackBegin(s, p));
    RollbackBeginKeepsAccounts(s, p);
  }

  lemma RollbackBeginKeepsAccounts(s: State, p: nat)
    requires Shape(s) && NothingDropped(s)
    ensures NothingDropped(RollbackBegin(s, p))
  {
    var s' := RollbackBegin(s, p);
    forall n | n in s'.desired ensures Accounted(s', n) {
      if s' != s && Published(s, p) && n == s.procs[p].name {
        assert p in s'.wakers && s'.wakers[p].RollingBack? && s'.procs[p].name == n;
      } else {
        KeepsAccount(s, s', n);
      }
    }
  }

  lemma RollbackEndKeepsShape(s: State, p: nat)
    requires Shape(s)
    ensures Shape(RollbackEnd(s, p))
  {
  }

  lemma RollbackEndKeepsIdle(s: State, p: nat)
    requires Shape(s) && IdleSound(s) && StoppersSound(s)
    ensures IdleSound(RollbackEnd(s, p)) && StoppersSound(RollbackEnd(s, p))
  {
  }

  lemma RollbackEndKeepsPorts(s: State, p: nat)
    requires Shape(s) && Shape(RollbackEnd(s, p))
    ensures forall n :: Holds(RollbackEnd(s, p), n) ==> Holds(s, n) && PortOf(RollbackEnd(s, p), n) == PortOf(s, n)
  {
  }

  lemma RollbackEndKeepsInv(s: State, p: nat)
    requires Inv(s)
    ensures Inv(RollbackEnd(s, p))
  {
    hide PortsSound, NothingDropped, Shape, IdleSound, StoppersSound, PortOf, Holds;
    RollbackEndKeepsShape(s, p);
    RollbackEndKeepsIdle(s, p);
    RollbackEndKeepsPorts(s, p);
    PortsShrink(s, RollbackEnd(s, p));
    RollbackEndKeepsAccounts(s, p);
  }

  lemma StoppingIsAccounted(s: State, n: string)
    requires Shape(s) && StoppersSound(s) && n in s.agents && n in s.desired
    ensures Accounted(s, n)
  {
    if s.procs[s.agents[n]].stopping {
      var q := s.agents[n];
      assert q in s.wakers && s.wakers[q].RollingBack? && s.procs[q].name == n;
    }
  }

  lemma RollbackEndKeepsOthers(s: State, p: nat, n: string)
    requires Shape(s) && Accounted(s, n) && (p < |s.procs| ==> n != s.procs[p].name)
    ensures Accounted(RollbackEnd(s, p), n)
  {
    hide RollbackPending;
    KeepsAccount(s, RollbackEnd(s, p), n);
  }

  lemma RollbackEndSettlesItsOwn(s: State, p: nat)
    requires Shape(s) && IdleSound(s) && StoppersSound(s) && NothingDropped(s)
    requires p < |s.procs| && s.procs[p].name in s.desired
    ensures Accounted(RollbackEnd(s, p), s.procs[p].name)
  {
    hide RollbackPending;
    var n := s.procs[p].name;
    if n in s.agents {
      RollbackEndKeepsShape(s, p);
      RollbackEndKeepsIdle(s, p);
      hide Shape, StoppersSound;
      StoppingIsAccounted(RollbackEnd(s, p), n);
    } else if RollbackEnd(s, p) == s {
      assert Accounted(s, n);
    }
  }

  lemma RollbackEndKeepsAccounts(s: State, p: nat)
    requires Shape(s) && IdleSound(s) && StoppersSound(s) && NothingDropped(s)
    ensures NothingDropped(RollbackEnd(s, p))
  {
    hide Shape, IdleSound, StoppersSound, Accounted;
    forall n | n in RollbackEnd(s, p).desired ensures Accounted(RollbackEnd(s, p), n) {
      if p < |s.procs| && n == s.procs[p].name {
        RollbackEndSettlesItsOwn(s, p);
      } else {
        RollbackEndKeepsOthers(s, p, n);
      }
    }
  }

  lemma HealthyKeepsInv(s: State, p: nat)
    requires Inv(s)
    ensures Inv(Healthy(s, p))
  {
    hide PortsSound;
    var s' := Healthy(s, p);
    assert Shape(s') && IdleSound(s') && StoppersSound(s');
    PortsShrink(s, s');
    forall n | n in s'.desired ensures Accounted(s', n) { KeepsAccount(s, s', n); }
  }

  lemma DropTimerKeepsInv(s: State, name: string)
    requires Inv(s) && name in s.restarts
    requires name in s.desired ==> name in s.idle || name in s.agents
    ensures Inv(s.(restarts := s.restarts - multiset{name}))
  {
    hide PortsSound;
    var s' := s.(restarts := s.restarts - multiset{name});
    assert Shape(s') && IdleSound(s') && StoppersSound(s');
    PortsShrink(s, s');
    forall n | n in s'.desired ensures Accounted(s', n) {
      if n == name {
        if n in s.agents { StoppingIsAccounted(s', n); }
      } else {
        KeepsAccount(s, s', n);
      }
    }
  }

  /** The restart of a wanted, absent agent: the timer is spent on a new process,
      or set again. */
  lemma FireTimerKeepsInv(s: State, name: string, m: Machine)
    requires Inv(s) && name in s.restarts && s.running && name in s.desired && name !in s.agents && name !in s.idle
    ensures Inv(Restart(s, name, m))
  {
    hide Resolve, Start;
    var s0 := s.(restarts := s.restarts - multiset{name});
    var r := Resolve(s0, name, s.desired[name], m);
    StartPublishes(s0, name, s.desired[name], m);
    if Starts(s0, name, s.desired[name], m) {
      assert Shape(s0);
      PortsShrink(s, s0);
      ResolvedPortIsFree(s0, name, s.desired[name], m);
      PublishKeepsPorts(s0, name, r.outcome.port, r.cursor);
      TimerPublishKeepsAccounts(s, name, r.outcome.port, r.cursor);
    } else {
      CursorKeepsInv(s, r.cursor);
    }
  }

  lemma TimerPublishKeepsAccounts(s: State, name: string, port: int, cursor: int)
    requires Shape(s) && IdleSound(s) && StoppersSound(s) && NothingDropped(s) && name !in s.idle
    ensures var s' := Publish(s.(restarts := s.restarts - multiset{name}), name, port, cursor);
            IdleSound(s') && StoppersSound(s') && NothingDropped(s')
  {
    var s' := Publish(s.(restarts := s.restarts - multiset{name}), name, port, cursor);
    forall n | n in s'.desired ensures Accounted(s', n) {
      if n != name { KeepsAccount(s, s', n); }
    }
  }

  lemma RestartKeepsInv(s: State, name: string, m: Machine)
    requires Inv(s)
    ensures Inv(Restart(s, name, m))
  {
    if name in s.restarts {
      if s.running && name in s.desired && name !in s.agents && name !in s.idle {
        FireTimerKeepsInv(s, name, m);
      } else {
        DropTimerKeepsInv(s, name);
      }
    }
  }

  /** A direct start is sound when it starts nothing or the agent is not scaled to
      zero; every other step always is. */
  predicate SoundStart(s: State, step: Step) {
    step.DoStart? ==>
      !s.running || step.name in s.agents || step.name !in s.idle || !Starts(s, step.name, step.port, step.m)
  }

  ghost predicate SoundStarts(s: State, steps: seq<Step>) {
    steps == [] || (SoundStarts(s, steps[..|steps| - 1])
      && SoundStart(Run(s, steps[..|steps| - 1]), steps[|steps| - 1]))
  }

  lemma DirectStartKeepsInv(s: State, name: string, port: int, m: Machine)
    requires Inv(s) && SoundStart(s, DoStart(name, port, m))
    ensures Inv(DirectStart(s, name, port, m))
  {
    if s.running && name !in s.agents {
      if name in s.idle {
        CursorKeepsInv(s, Resolve(s, name, port, m).cursor);
      } else {
        StartKeepsInv(s, name, port, m);
      }
    }
    hide Inv, Resolve;
  }

  lemma StepKeepsInv(s: State, step: Step)
    requires Inv(s) && SoundStart(s, step)
    ensures Inv(Apply(s, step))
  {
    hide PortsSound, NothingDropped, StoppersSound, Resolve, Start, Starts, StartWatched, Stop, Exit, Restart,
         RollbackBegin, RollbackEnd, Wake;
    match step
    case DoBoot(name, port, m) => if s.running && name !in s.desired { StartKeepsInv(s, name, port, m); }
    case DoEnsure(name, port, admit, m) =>
      if s.running {
        if name !in s.desired {
          StartWatchedKeepsInv(s, name, port, m);
        } else if name in s.idle {
          WakeKeepsInv(s, name, m);
        } else {
          StartWatchedKeepsInv(s, name, s.desired[name], m);
        }
      }
    case DoStart(name, port, m) => DirectStartKeepsInv(s, name, port, m);
    case DoWake(name, m) => WakeKeepsInv(s, name, m);
    case DoStartInstance(base, idx, m) =>
      var name := I.InstanceName(base, idx);
      if name in s.idle {
        WakeKeepsInv(s, name, m);
      } else if s.running {
        StartWatchedKeepsInv(s, name, 0, m);
      }
    case DoStop(name) => StopKeepsInv(s, name);
    case DoExit(p, idleExit) => ExitKeepsInv(s, p, idleExit);
    case DoRestart(name, m) => RestartKeepsInv(s, name, m);
    case DoHealthy(p) => HealthyKeepsInv(s, p);
    case DoRollbackBegin(p) => RollbackBeginKeepsInv(s, p);
    case DoRollbackEnd(p) => RollbackEndKeepsInv(s, p);
    case DoShutdown => ShutdownKeepsInv(s);
  }

  lemma ShutdownKeepsInv(s: State)
    requires Inv(s)
    ensures Inv(Shutdown(s))
  {
    assert forall n :: !Holds(Shutdown(s), n);
  }

  /** One step keeps the invariant if and only if it is not a direct start that runs
      an agent scaled to zero. */
  lemma StepKeepsInvIff(s: State, step: Step)
    requires Inv(s)
    ensures Inv(Apply(s, step)) <==> SoundStart(s, step)
  {
    if SoundStart(s, step) {
      StepKeepsInv(s, step);
    } else {
      StartAgentKeepsIdleSoundIff(s, step.name, step.port, step.m);
    }
    hide Shape, PortsSound, NothingDropped, StoppersSound, Start, IdleSound;
  }

  /** In every run whose direct starts are sound. */
  lemma {:induction false} EveryRunKeepsInv(range: Range, cursor: int, pinned: map<string, int>, steps: seq<Step>)
    requires SoundStarts(Initial(range, cursor, pinned), steps)
    ensures Inv(Run(Initial(range, cursor, pinned), steps))
  {
    if steps == [] {
      assert forall n :: !Holds(Initial(range, cursor, pinned), n);
    } else {
      hide Inv, Apply, SoundStart;
      var prefix := steps[..|steps| - 1];
      EveryRunKeepsInv(range, cursor, pinned, prefix);
      StepKeepsInv(Run(Initial(range, cursor, pinned), prefix), steps[|steps| - 1]);
    }
  }

  // ----- The claims -----

  /** In every run: an agent scaled to zero is wanted and not running, and a wanted
      agent is running and not being stopped, or scaled to zero, or has a restart
      pending, or is inside a rollback that will settle it. */
  lemma NoWantedAgentIsDropped(range: Range, cursor: int, pinned: map<string, int>, steps: seq<Step>, n: string)
    requires SoundStarts(Initial(range, cursor, pinned), steps)
    ensures var s := Run(Initial(range, cursor, pinned), steps);
            && (n in s.idle ==> n in s.desired && n !in s.agents)
            && (n in s.desired ==>
                  || (n in s.agents && s.agents[n] < |s.procs| && !s.procs[s.agents[n]].stopping)
                  || n in s.idle
                  || n in s.restarts
                  || RollbackPending(s, n))
  {
    hide Apply, RollbackPending;
    EveryRunKeepsInv(range, cursor, pinned, steps);
    var s := Run(Initial(range, cursor, pinned), steps);
    assert n in s.desired ==> Accounted(s, n);
  }

  /** No two names that run, or are wanted and not scaled to zero, have the same
      port, in any run. */
  lemma PortsNeverClash(range: Range, cursor: int, pinned: map<string, int>, steps: seq<Step>, n: string, o: string)
    requires SoundStarts(Initial(range, cursor, pinned), steps)
    requires Holds(Run(Initial(range, cursor, pinned), steps), n)
             && Holds(Run(Initial(range, cursor, pinned), steps), o) && n != o
    ensures var s := Run(Initial(range, cursor, pinned), steps); Shape(s) && PortOf(s, n) != PortOf(s, o)
  {
    hide Apply, NothingDropped;
    EveryRunKeepsInv(range, cursor, pinned, steps);
  }

  /** So a crashed agent gets its own port back from the scheduler: its restart can
      fail for what the machine says about the port or for a failed spawn, never
      for a reservation. */
  lemma RestartKeepsItsPort(s: State, name: string, m: Machine)
    requires Inv(s) && name in s.desired && name !in s.agents && name !in s.idle
    ensures s.desired[name] !in Reserved(s, {name})
    ensures Starts(s, name, s.desired[name], m) <==>
            m.spawns && (s.desired[name] < 0 || m.probe(s.desired[name]).Free? || m.probe(s.desired[name]).Stale?)
  {
    var p := s.desired[name];
    assert Holds(s, name) && PortOf(s, name) == p;
    if p in Reserved(s, {name}) {
      ReservedHasHolder(s, p, {name});
    }
  }

  /** The machine takes a process on this port. */
  predicate Admits(m: Machine, port: int) {
    m.spawns && (port < 0 || m.probe(port).Free? || m.probe(port).Stale?)
  }

  /** What a timer leaves behind when it runs out. For a wanted agent that neither runs
      nor is scaled to zero: a new process on the agent's own port if the machine takes
      it, and otherwise everything as it was, the timer included. For any other agent
      only the timer is gone. */
  lemma FiredTimer(s: State, name: string, m: Machine)
    requires Inv(s) && name in s.restarts
    ensures var spent := s.(restarts := s.restarts - multiset{name});
            Apply(s, DoRestart(name, m)) ==
              if name !in s.desired || name in s.agents || name in s.idle then spent
              else if !Admits(m, s.desired[name]) then s
              else
                spent.(agents := s.agents[name := |s.procs|], procs := s.procs + [Proc(name, s.desired[name], false)])
  {
    var spent := s.(restarts := s.restarts - multiset{name});
    if name in s.desired && name !in s.agents && name !in s.idle {
      var port := s.desired[name];
      RestartKeepsItsPort(s, name, m);
      assert Reserved(spent, {name}) == Reserved(s, {name});
      assert s.desired[name := port] == s.desired;
      hide Reserved;
    }
  }

  /** The steps that may give n another port: the first start of an agent that is not
      wanted yet, a direct start, the start of an instance, and a wake. */
  predicate GivesPort(s: State, step: Step, n: string) {
    match step
    case DoBoot(name, _, _) => name == n && n !in s.desired
    case DoEnsure(name, _, admit, _) => admit && name == n && (n !in s.desired || (n !in s.agents && n in s.idle))
    case DoStart(name, _, _) => name == n && n !in s.agents
    case DoWake(name, _) => name == n && n !in s.agents && n in s.idle
    case DoStartInstance(base, idx, _) => idx > 0 && I.InstanceName(base, idx) == n && n !in s.agents
    case _ => false
  }

  /** From s to t no process changes its port, and n keeps the one it was wanted on,
      for itself and for every process it is given. */
  predicate PortStays(s: State, t: State, n: string) {
    && (n in t.desired ==> n in s.desired && t.desired[n] == s.desired[n])
    && |s.procs| <= |t.procs|
    && (forall p :: 0 <= p < |s.procs| ==> t.procs[p].(stopping := false) == s.procs[p].(stopping := false))
    && (forall p :: |s.procs| <= p < |t.procs| && t.procs[p].name == n ==>
      n in s.desired && t.procs[p].port == s.desired[n])
  }

  lemma OwnPortStarts(s: State, n: string, m: Machine)
    requires Inv(s) && n in s.desired
    ensures PortStays(s, Start(s, n, s.desired[n], m), n) && PortStays(s, StartWatched(s, n, s.desired[n], m), n)
  {
    hide Reserved;
  }

  lemma OtherStarts(s: State, name: string, port: int, m: Machine, n: string)
    requires name != n
    ensures PortStays(s, Start(s, name, port, m), n) && PortStays(s, StartWatched(s, name, port, m), n)
  {
    hide Resolve;
  }

  lemma OtherWakes(s: State, name: string, m: Machine, n: string)
    requires name != n
    ensures PortStays(s, Wake(s, name, m), n)
  {
    hide Start, StartWatched, Starts;
    OtherStarts(s, name, 0, m, n);
  }

  lemma StepKeepsPort(s: State, step: Step, n: string)
    requires Inv(s) && !GivesPort(s, step, n)
    ensures PortStays(s, Apply(s, step), n)
  {
    hide Start, StartWatched, Starts, Wake, I.InstanceName, Inv;
    match step
    case DoBoot(name, port, m) => if name != n { OtherStarts(s, name, port, m, n); }
    case DoEnsure(name, port, admit, m) =>
      if name == n {
        if admit { OwnPortStarts(s, n, m); }
      } else {
        OtherStarts(s, name, if name in s.desired then s.desired[name] else port, m, n);
        OtherWakes(s, name, m, n);
      }
    case DoStart(name, port, m) => if name != n { OtherStarts(s, name, port, m, n); }
    case DoWake(name, m) => WakePort(s, name, m, n);
    case DoStartInstance(base, idx, m) =>
      if I.InstanceName(base, idx) != n {
        OtherStarts(s, I.InstanceName(base, idx), 0, m, n);
        OtherWakes(s, I.InstanceName(base, idx), m, n);
      }
    case DoRestart(name, m) => RestartPort(s, name, m, n);
    case _ => QuietStepKeepsPort(s, step, n);
  }

  lemma WakePort(s: State, name: string, m: Machine, n: string)
    requires !(name == n && n !in s.agents && n in s.idle)
    ensures PortStays(s, Wake(s, name, m), n)
  {
    hide StartWatched, Starts;
    if name != n { OtherWakes(s, name, m, n); }
  }

  lemma RestartPort(s: State, name: string, m: Machine, n: string)
    requires Inv(s)
    ensures PortStays(s, Apply(s, DoRestart(name, m)), n)
  {
    hide Restart, Inv;
    if name in s.restarts {
      FiredTimer(s, name, m);
    } else {
      NoTimer(s, name, m);
    }
  }

  lemma NoTimer(s: State, name: string, m: Machine)
    requires name !in s.restarts
    ensures Apply(s, DoRestart(name, m)) == s
  {
  }

  lemma QuietStepKeepsPort(s: State, step: Step, n: string)
    requires step.DoStop? || step.DoExit? || step.DoHealthy? || step.DoRollbackBegin? || step.DoRollbackEnd?
             || step.DoShutdown?
    ensures PortStays(s, Apply(s, step), n)
  {
  }

  ghost predicate NobodyGivesPort(s: State, steps: seq<Step>, n: string) {
    steps == [] || (NobodyGivesPort(s, steps[..|steps| - 1], n)
      && !GivesPort(Run(s, steps[..|steps| - 1]), steps[|steps| - 1], n))
  }

  /** Over runs: whatever crashes, timers, rollbacks and starts of others come, an
      agent's port changes by such a step alone, and every process it is given until
      then is on that port. */
  lemma {:induction false} PortChangesOnlyByAStart(s: State, steps: seq<Step>, n: string)
    requires Inv(s) && SoundStarts(s, steps) && NobodyGivesPort(s, steps, n)
    ensures Inv(Run(s, steps)) && PortStays(s, Run(s, steps), n)
  {
    hide Inv, Apply, SoundStart, GivesPort;
    if steps != [] {
      var prefix, last := steps[..|steps| - 1], steps[|steps| - 1];
      PortChangesOnlyByAStart(s, prefix, n);
      StepKeepsPort(Run(s, prefix), last, n);
      StepKeepsInv(Run(s, prefix), last);
    }
  }

  // ----- Starts on a port of the range -----

  /** Some port of the range is neither reserved nor a foreign process's, and none of
      those is one whose inspection fails. */
  ghost predicate HasPort(s: State, m: Machine) {
    && (exists p :: s.range.Has(p) && Usable(p, Reserved(s, {}), m.probe))
    && (forall p :: s.range.Has(p) && Usable(p, Reserved(s, {}), m.probe) ==> !m.probe(p).Broken?)
  }

  /** From s to t one process of this name came up, watched, on a port of the range
      that nobody had, and the next search begins behind it. */
  ghost predicate CameUp(s: State, t: State, name: string) {
    exists p :: CameUpOn(s, t, name, p)
  }

  predicate CameUpOn(s: State, t: State, name: string, port: int) {
    && s.range.Has(port) && port !in Reserved(s, {})
    && t == s.(cursor := s.range.Next(port), agents := s.agents[name := |s.procs|],
               procs := s.procs + [Proc(name, port, false)], desired := s.desired[name := port],
               idle := s.idle - {name}, wakers := s.wakers[|s.procs| := Watching])
  }

  lemma DynamicStart(s: State, name: string, m: Machine)
    requires s.range.Valid()
    ensures var r := Resolve(s, name, 0, m).outcome;
            && (HasPort(s, m) ==> r.Allocated?)
            && (r.Allocated? ==> s.range.Has(r.port) && Usable(r.port, Reserved(s, {}), m.probe))
            && (r.Allocated? ==> Resolve(s, name, 0, m).cursor == s.range.Next(r.port))
  {
    ScanSucceedsIff(s.range, s.cursor, Reserved(s, {}), m.probe);
    var k := ScanStopsAtFirstUsable(s.range, s.cursor, Reserved(s, {}), m.probe, s.range.Size());
    hide Reserved, ScanFrom;
  }

  /** A wake brings up an agent that is scaled to zero whenever there is a port for it
      and the process spawns. When it does not, nothing has changed but the cursor. */
  lemma WakeBringsUp(s: State, name: string, m: Machine)
    requires Inv(s) && s.range.Valid() && s.running && name in s.idle
    ensures var t := Apply(s, DoWake(name, m));
            && (HasPort(s, m) && m.spawns ==> CameUp(s, t, name))
            && (CameUp(s, t, name) ==> m.spawns)
            && (!CameUp(s, t, name) ==> t == s.(cursor := t.cursor))
  {
    DynamicStart(s, name, m);
    hide HasPort;
    var t, r := Apply(s, DoWake(name, m)), Resolve(s, name, 0, m);
    if Starts(s, name, 0, m) {
      assert t == s.(cursor := t.cursor, agents := t.agents, procs := t.procs, desired := t.desired, idle := t.idle,
                     wakers := t.wakers);
      assert CameUpOn(s, t, name, r.outcome.port);
    } else {
      assert |t.procs| == |s.procs|;
      assert !CameUp(s, t, name);
    }
    hide Resolve;
  }

  /** An instance that is not scaled to zero starts only while its base is wanted, and
      then comes up whenever there is a port for it and the process spawns. */
  lemma InstanceNeedsItsBase(s: State, base: string, idx: int, m: Machine)
    requires Inv(s) && s.range.Valid() && idx > 0
    requires I.InstanceName(base, idx) !in s.idle && I.InstanceName(base, idx) !in s.agents
    ensures var t, name := Apply(s, DoStartInstance(base, idx, m)), I.InstanceName(base, idx);
            && (base !in s.desired ==> t == s)
            && (base in s.desired && HasPort(s, m) && m.spawns ==> CameUp(s, t, name))
            && (CameUp(s, t, name) ==> base in s.desired && m.spawns)
  {
    var t, name := Apply(s, DoStartInstance(base, idx, m)), I.InstanceName(base, idx);
    DynamicStart(s, name, m);
    hide HasPort, I.InstanceName;
    if base in s.desired && Starts(s, name, 0, m) {
      assert CameUpOn(s, t, name, Resolve(s, name, 0, m).outcome.port);
    } else {
      assert |t.procs| == |s.procs|;
      assert !CameUp(s, t, name);
    }
    hide Resolve;
  }

  // ----- Starts where they were asked for -----

  /** From s to t one process of this name came up on this port; only the caller that
      waits for it tells a watched start from another. */
  predicate StartedOn(s: State, t: State, name: string, port: int) {
    t == s.(agents := s.agents[name := |s.procs|], procs := s.procs + [Proc(name, port, false)],
            desired := s.desired[name := port], wakers := t.wakers)
  }

  /** The first start of an agent, by the configuration, by name or directly, that asks
      for a port gets that port or nothing: it comes up exactly when nobody else has the
      port and the machine takes it. */
  lemma StartTakesThePortItAsksFor(s: State, step: Step)
    requires Inv(s) && s.running && (step.DoBoot? || step.DoStart? || (step.DoEnsure? && step.admit)) && step.port != 0
    requires step.name !in s.desired && step.name !in s.agents
    ensures var t := Apply(s, step);
            if step.port !in Reserved(s, {step.name}) && Admits(step.m, step.port)
            then StartedOn(s, t, step.name, step.port)
                 && t.wakers == (if step.DoEnsure? then s.wakers[|s.procs| := Watching] else s.wakers)
            else t == s
  {
    hide Reserved;
  }

  // ----- What an exit leads to -----

  lemma {:induction false} RunOfTwo(s: State, a: Step, b: Step)
    ensures Run(s, [a, b]) == Apply(Apply(s, a), b)
  {
    hide Apply;
    assert [a, b][..1] == [a] && [a][..0] == [];
    assert Run(s, []) == s;
    assert Run(s, [a]) == Apply(s, a);
  }

  /** A wanted agent whose process crashes comes back with its timer, on its own port,
      if the machine takes it, and until then the timer is pending. */
  lemma CrashedAgentComesBack(s: State, n: string, m: Machine)
    requires Inv(s) && n in s.agents && n in s.desired && !s.procs[s.agents[n]].stopping
    ensures var p, port := s.agents[n], s.desired[n];
            var crashed, back := Apply(s, DoExit(p, false)), Run(s, [DoExit(p, false), DoRestart(n, m)]);
            && n !in crashed.agents && n in crashed.restarts && n !in crashed.idle && crashed.desired == s.desired
            && (if Admits(m, port)
                then n in back.agents && back.agents[n] == |s.procs| && back.restarts == s.restarts
                     && back.procs == s.procs + [Proc(n, port, false)]
                else back == crashed)
  {
    var p := s.agents[n];
    var crashed := Apply(s, DoExit(p, false));
    RunOfTwo(s, DoExit(p, false), DoRestart(n, m));
    ExitKeepsInv(s, p, false);
    assert crashed.restarts == s.restarts + multiset{n};
    assert crashed.restarts - multiset{n} == s.restarts;
    hide Inv, Run, Exit;
    FiredTimer(crashed, n, m);
  }

  /** One that exits for idleness is scaled to zero instead, with no timer, and the
      timers it may still have from before do nothing. */
  lemma IdleAgentWaitsForAWake(s: State, n: string, m: Machine)
    requires Inv(s) && n in s.agents && n in s.desired && !s.procs[s.agents[n]].stopping
    ensures var p := s.agents[n];
            var idle := Apply(s, DoExit(p, true));
            && n !in idle.agents && n in idle.idle && idle.desired == s.desired && idle.restarts == s.restarts
            && Apply(idle, DoRestart(n, m)) == idle.(restarts := idle.restarts - multiset{n})
  {
    var p := s.agents[n];
    var idle := Apply(s, DoExit(p, true));
    ExitKeepsInv(s, p, true);
    hide Inv;
    if n in idle.restarts {
      FiredTimer(idle, n, m);
    } else {
      NoTimer(idle, n, m);
      assert idle.restarts - multiset{n} == idle.restarts;
    }
  }

  /** A process that is being stopped, or whose agent is not wanted, leaves neither a
      timer nor an idle agent behind. */
  lemma StoppedProcessLeavesNothing(s: State, p: nat, idleExit: bool)
    requires Inv(s) && Published(s, p) && (s.procs[p].stopping || s.procs[p].name !in s.desired)
    ensures var t := Apply(s, DoExit(p, idleExit));
            t == s.(exited := s.exited + {p}, agents := s.agents - {s.procs[p].name})
  {
  }

  /** The exit of a process the scheduler no longer knows under its name is noted, and
      touches nothing of the one it knows. */
  lemma ForgottenProcessExits(s: State, p: nat, idleExit: bool)
    requires p < |s.procs| && !Published(s, p)
    ensures Apply(s, DoExit(p, idleExit)) == s.(exited := s.exited + {p})
  {
    assert p in s.exited ==> s.exited + {p} == s.exited;
  }

  /** A caller that finds its process unhealthy takes it down, and the agent is scaled
      to zero: it is wanted still, no timer runs for it on that account, and the next
      wake may try again. */
  lemma FailedWakeGoesIdle(s: State, p: nat, idleExit: bool)
    requires Inv(s) && p in s.wakers && s.wakers[p] == Watching && Published(s, p) && s.procs[p].name in s.desired
    ensures var n := s.procs[p].name;
            var t := Run(s, [DoRollbackBegin(p), DoExit(p, idleExit), DoRollbackEnd(p)]);
            && n in t.idle && n !in t.agents && t.desired == s.desired && t.restarts == s.restarts && p !in t.wakers
  {
    RunOfThree(s, DoRollbackBegin(p), DoExit(p, idleExit), DoRollbackEnd(p));
    hide Run;
  }

  /** A caller that has found its process healthy takes nothing down any more. */
  lemma HealthyProcessStays(s: State, p: nat)
    requires p in s.wakers && s.wakers[p] == Watching
    ensures var t := Apply(s, DoHealthy(p));
            && t == s.(wakers := s.wakers - {p})
            && Apply(t, DoRollbackBegin(p)) == t && Apply(t, DoRollbackEnd(p)) == t
  {
  }

  /** Shut down: nothing runs, is wanted or waits for a wake. */
  predicate Off(s: State) {
    !s.running && s.agents == map[] && s.desired == map[] && s.idle == {}
  }

  lemma StepKeepsOff(s: State, step: Step)
    requires Off(s)
    ensures Off(Apply(s, step)) && |Apply(s, step).procs| == |s.procs|
  {
    hide I.InstanceName, Resolve, Start, StartWatched;
  }

  /** After a shutdown nothing starts again, whatever timers and callers are under way. */
  lemma {:induction false} ShutdownIsFinal(s: State, steps: seq<Step>)
    ensures Off(Run(Apply(s, DoShutdown), steps)) && |Run(Apply(s, DoShutdown), steps).procs| == |s.procs|
  {
    if steps != [] {
      hide Off, Apply;
      ShutdownIsFinal(s, steps[..|steps| - 1]);
      StepKeepsOff(Run(Apply(s, DoShutdown), steps[..|steps| - 1]), steps[|steps| - 1]);
    }
  }

  lemma ReservedHasHolder(s: State, p: int, but: set<string>)
    requires Shape(s) && p in Reserved(s, but)
    ensures exists n ::
              && n !in but
              && ((Holds(s, n) && PortOf(s, n) == p) || (n in s.pinned && s.pinned[n] > 0 && s.pinned[n] == p))
  {
    if p in RunningPorts(s, but) {
      var n :| n in s.agents && n !in but && s.agents[n] < |s.procs| && s.procs[s.agents[n]].port == p;
      assert Holds(s, n) && PortOf(s, n) == p;
    } else if p in DesiredPorts(s, but) {
      var n :| n in s.desired && n !in but && n !in s.idle && s.desired[n] == p;
      assert Holds(s, n) && PortOf(s, n) == p;
    } else {
      var n :| n in s.pinned && n !in but && s.pinned[n] > 0 && s.pinned[n] == p;
    }
  }

  // ----- An operator's stop -----

  /** Not wanted, not wakeable, and if a process is still published it is one that
      is being stopped. */
  predicate Down(s: State, n: string) {
    && n !in s.desired && n !in s.idle
    && (n in s.agents ==> s.agents[n] < |s.procs| && s.procs[s.agents[n]].stopping)
  }

  predicate ExplicitStart(step: Step, n: string) {
    || (step.DoBoot? && step.name == n)
    || (step.DoEnsure? && step.name == n)
    || (step.DoStart? && step.name == n)
    || (step.DoStartInstance? && step.idx > 0 && I.InstanceName(step.base, step.idx) == n)
  }

  predicate NoNewProcess(s: State, s': State, n: string) {
    && |s.procs| <= |s'.procs|
    && (forall p :: 0 <= p < |s.procs| ==> s'.procs[p].name == s.procs[p].name)
    && (forall p :: |s.procs| <= p < |s'.procs| ==> s'.procs[p].name != n)
  }

  lemma StartOfAnotherKeepsDown(s: State, name: string, port: int, m: Machine, n: string)
    requires Down(s, n) && name != n
    ensures Down(Start(s, name, port, m), n) && NoNewProcess(s, Start(s, name, port, m), n)
    ensures Down(StartWatched(s, name, port, m), n) && NoNewProcess(s, StartWatched(s, name, port, m), n)
  {
    hide Resolve;
  }

  lemma WakeKeepsDown(s: State, name: string, m: Machine, n: string)
    requires Down(s, n)
    ensures Down(Wake(s, name, m), n) && NoNewProcess(s, Wake(s, name, m), n)
  {
    hide Start, Starts, StartWatched;
    if name != n { StartOfAnotherKeepsDown(s, name, 0, m, n); }
  }

  lemma StopKeepsDown(s: State, name: string, n: string)
    requires Shape(s) && Down(s, n)
    ensures Down(Stop(s, name), n) && NoNewProcess(s, Stop(s, name), n)
  {
  }

  lemma RollbackKeepsDown(s: State, p: nat, n: string)
    requires Shape(s) && Down(s, n)
    ensures Down(RollbackBegin(s, p), n) && NoNewProcess(s, RollbackBegin(s, p), n)
    ensures Down(RollbackEnd(s, p), n) && NoNewProcess(s, RollbackEnd(s, p), n)
  {
  }

  lemma QuietStepKeepsDown(s: State, step: Step, n: string)
    requires Shape(s) && Down(s, n)
    requires step.DoStop? || step.DoHealthy? || step.DoRollbackBegin? || step.DoRollbackEnd? || step.DoShutdown?
    ensures Down(Apply(s, step), n) && NoNewProcess(s, Apply(s, step), n)
  {
    hide Stop, RollbackBegin, RollbackEnd;
    match step
    case DoStop(name) => StopKeepsDown(s, name, n);
    case DoRollbackBegin(p) => RollbackKeepsDown(s, p, n);
    case DoRollbackEnd(p) => RollbackKeepsDown(s, p, n);
    case _ =>
  }

  lemma ExitKeepsDown(s: State, p: nat, idleExit: bool, n: string)
    requires Shape(s) && Down(s, n)
    ensures Down(Exit(s, p, idleExit), n) && NoNewProcess(s, Exit(s, p, idleExit), n)
  {
    hide Exit;
    ExitFrame(s, p, idleExit);
  }

  lemma StepKeepsDown(s: State, step: Step, n: string)
    requires Shape(s) && Down(s, n) && !ExplicitStart(step, n)
    ensures Down(Apply(s, step), n) && NoNewProcess(s, Apply(s, step), n)
  {
    hide Resolve, Start, Starts, StartWatched, Wake, Exit, Stop, RollbackBegin, RollbackEnd, Healthy, Shape,
         I.InstanceName;
    match step
    case DoBoot(name, port, m) => StartOfAnotherKeepsDown(s, name, port, m, n);
    case DoEnsure(name, port, admit, m) =>
      WakeKeepsDown(s, name, m, n);
      StartOfAnotherKeepsDown(s, name, if name in s.desired then s.desired[name] else port, m, n);
    case DoStart(name, port, m) => StartOfAnotherKeepsDown(s, name, port, m, n);
    case DoWake(name, m) => WakeKeepsDown(s, name, m, n);
    case DoStartInstance(base, idx, m) =>
      WakeKeepsDown(s, I.InstanceName(base, idx), m, n);
      if idx > 0 { StartOfAnotherKeepsDown(s, I.InstanceName(base, idx), 0, m, n); }
    case DoRestart(name, m) =>
      var s0 := s.(restarts := s.restarts - multiset{name});
      if name != n && name in s.desired { StartOfAnotherKeepsDown(s0, name, s.desired[name], m, n); }
    case DoExit(p, idleExit) => ExitKeepsDown(s, p, idleExit, n);
    case _ => QuietStepKeepsDown(s, step, n);
  }

  /** After StopAgent on a base name, no wake, restart timer, process exit or
      rollback, however many are under way, starts a process of that name until
      somebody starts it explicitly. */
  lemma {:induction false} StopIsFinal(s: State, n: string, steps: seq<Step>)
    requires Inv(s) && I.SEP !in n
    requires forall step :: step in steps ==> !((step.DoBoot? || step.DoEnsure? || step.DoStart?) && step.name == n)
    requires SoundStarts(Stop(s, n), steps)
    ensures Inv(Run(Stop(s, n), steps)) && Down(Run(Stop(s, n), steps), n) && NoNewProcess(s, Run(Stop(s, n), steps), n)
  {
    hide Inv, Apply, I.InstanceName, SoundStart;
    if steps == [] {
      StopKeepsInv(s, n);
      StopBringsDown(s, n);
    } else {
      var prefix, last := steps[..|steps| - 1], steps[|steps| - 1];
      assert last in steps;
      StopIsFinal(s, n, prefix);
      var t := Run(Stop(s, n), prefix);
      if last.DoStartInstance? { I.PlainNamesAreNotInstances(n, last.base, last.idx); }
      assert Shape(t) by { InvHasShape(t); }
      StepKeepsDown(t, last, n);
      StepKeepsInv(t, last);
    }
  }

  lemma InvHasShape(s: State)
    requires Inv(s)
    ensures Shape(s)
  {
  }

  lemma StopBringsDown(s: State, n: string)
    requires Inv(s)
    ensures Down(Stop(s, n), n) && NoNewProcess(s, Stop(s, n), n)
  {
  }

  // ----- The direct start -----

  /** The admin restart is sound: it stops the agent first, which takes the name out
      of the idle set, and unless somebody else starts the name in between, the
      direct start then finds it absent from it. */
  lemma RestartAgentIsSound(s: State, n: string, steps: seq<Step>, port: int, m: Machine)
    requires Inv(s) && I.SEP !in n && SoundStarts(Stop(s, n), steps)
    requires forall step :: step in steps ==> !((step.DoBoot? || step.DoEnsure? || step.DoStart?) && step.name == n)
    ensures var t := Run(Stop(s, n), steps); SoundStart(t, DoStart(n, port, m)) && Inv(Apply(t, DoStart(n, port, m)))
  {
    StopIsFinal(s, n, steps);
    hide Inv, Run, Apply, Resolve, SoundStarts;
    StepKeepsInv(Run(Stop(s, n), steps), DoStart(n, port, m));
  }

  /** It leaves the idle set consistent exactly when it starts nothing or the agent
      was not scaled to zero. */
  lemma StartAgentKeepsIdleSoundIff(s: State, name: string, port: int, m: Machine)
    requires Inv(s)
    ensures IdleSound(DirectStart(s, name, port, m)) <==>
            !s.running || name in s.agents || name !in s.idle || !Starts(s, name, port, m)
  {
    hide Resolve;
    var s' := DirectStart(s, name, port, m);
    if s.running && name !in s.agents && Starts(s, name, port, m) {
      assert name in s'.agents && s'.idle == s.idle;
    }
  }

  /** A run that breaks it: an agent starts, goes idle, and is started by a direct
      call. */
  lemma StartAgentCanRunAnIdleAgent()
    ensures var m := Machine(p => Free, true);
            var s := Run(Initial(Range(9802, 9900), 9802, map[]),
                         [DoEnsure("a", 9802, true, m), DoExit(0, true), DoStart("a", 9802, m)]);
            "a" in s.idle && "a" in s.agents
  {
    var m := Machine(p => Free, true);
    var s0 := Initial(Range(9802, 9900), 9802, map[]);
    var a, b, c := DoEnsure("a", 9802, true, m), DoExit(0, true), DoStart("a", 9802, m);
    var s1 := Apply(s0, a);
    assert Reserved(s0, {"a"}) == {};
    assert s1.agents == map["a" := 0] && s1.procs == [Proc("a", 9802, false)];
    var s2 := Apply(s1, b);
    assert s2.agents == map[] && s2.idle == {"a"};
    assert Reserved(s2, {"a"}) == {};
    var s3 := Apply(s2, c);
    assert "a" in s3.idle && "a" in s3.agents;
    RunOfThree(s0, a, b, c);
    hide Apply, Run;
  }

  lemma RunOfThree(s: State, a: Step, b: Step, c: Step)
    ensures Run(s, [a, b, c]) == Apply(Apply(Apply(s, a), b), c)
  {
    hide Apply;
    assert [a, b, c][..2] == [a, b] && [a, b][..1] == [a] && [a][..0] == [];
    assert Run(s, []) == s;
    assert Run(s, [a]) == Apply(s, a);
    assert Run(s, [a, b]) == Apply(Run(s, [a]), b);
  }
}
