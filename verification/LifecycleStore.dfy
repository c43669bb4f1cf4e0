/** The durable lifecycle record of each session: phase, initialization marker,
    bounded event log and last outcome, written to disk on every change. */
module LifecycleStores {
  import opened Options

  type Ctx = string

  datatype Phase = Idle | Initializing | Running | Finalizing

  datatype Trigger = NoTrigger | SoftDeadline | GracefulStop

  datatype Kind = Completed | RuntimeTimeout | Canceled | ProviderError | FinalizeTimeout | InitializationFailure

  /** What a lifecycle event says; the turn it is about is kept beside it. */
  datatype Note =
    | SessionInitializing
    | SessionInitialized
    | SessionInitFailed
    | TurnRunning
    | TurnSoftDeadline
    | TurnFinalizing(trigger: Trigger)
    | TurnFinalized(trigger: Trigger)
    | TurnFinalizationFailed(trigger: Trigger, kind: Kind)
    | TurnOutcome(kind: Kind, trigger: Trigger)

  datatype Event = Event(seqno: nat, turn: string, note: Note)

  datatype Outcome = Outcome(turn: string, kind: Kind, finalized: bool, trigger: Trigger)

  datatype Record = Record(
    phase: Phase,
    turn: string,
    version: string,
    initialized: bool,
    degraded: bool,
    events: seq<Event>,
    last: Option<Outcome>)

  const FRESH := Record(Idle, "", "", false, false, [], None)

  const MAX_EVENTS := 500

  function Newest(events: seq<Event>): seq<Event> {
    if |events| > MAX_EVENTS then events[|events| - MAX_EVENTS..] else events
  }

  datatype Store = Store(sessions: map<Ctx, Record>, seqno: nat) {

    function Get(c: Ctx): Record {
      if c in sessions then sessions[c] else FRESH
    }

    function Put(c: Ctx, rec: Record): Store {
      this.(sessions := sessions[c := rec])
    }

    predicate NeedsInit(c: Ctx, version: string) {
      var rec := Get(c);
      !(rec.degraded && rec.version == version) && (!rec.initialized || rec.version != version)
    }

    function MarkInitialized(c: Ctx, version: string): Store {
      Put(c, Get(c).(initialized := true, degraded := false, version := version))
    }

    function MarkInitDegraded(c: Ctx, version: string): Store {
      Put(c, Get(c).(degraded := true, version := version))
    }

    function SetPhase(c: Ctx, phase: Phase, turn: string): Store {
      Put(c, Get(c).(phase := phase, turn := turn))
    }

    function Append(c: Ctx, turn: string, note: Note): Store {
      var rec := Get(c);
      Store(sessions[c := rec.(events := Newest(rec.events + [Event(seqno + 1, turn, note)]))], seqno + 1)
    }

    function RecordOutcome(c: Ctx, o: Outcome): Store {
      Put(c, Get(c).(last := Some(o), phase := Idle, turn := ""))
    }

    /** What a restart makes of the file: nothing is in flight any more. */
    function Reloaded(): Store {
      this.(sessions := map c | c in sessions :: Settled(sessions[c]))
    }
  }

  function Settled(rec: Record): Record {
    var r := if rec.phase != Idle then rec.(phase := Idle, turn := "") else rec;
    r.(events := Newest(r.events))
  }

  /** `disk` is the last file written. */
  class LifecycleStore {
    var sessions: map<Ctx, Record>
    var seqno: nat
    var disk: Store

    ghost function View(): Store
      reads this
    {
      Store(sessions, seqno)
    }

    constructor (file: Store)
      ensures View() == file.Reloaded() && disk == file
    {
      hide Settled;
      var left, recs := file.sessions.Keys, file.sessions;
      while left != {}
        invariant forall c :: c in recs <==> c in file.sessions
        invariant forall c :: c in left ==> c in file.sessions
        invariant forall c :: c in recs ==> recs[c] == if c in left then file.sessions[c] else Settled(file.sessions[c])
        decreases |left|
      {
        var c :| c in left;
        left := left - {c};
        var rec := SettleOne(recs[c]);
        recs := recs[c := rec];
      }
      assert recs == file.Reloaded().sessions;
      sessions, seqno, disk := recs, file.seqno, file;
    }

    static method SettleOne(rec: Record) returns (r: Record)
      ensures r == Settled(rec)
    {
      r := rec;
      if r.phase != Idle { r := r.(phase := Idle, turn := ""); }
      if |r.events| > MAX_EVENTS { r := r.(events := r.events[|r.events| - MAX_EVENTS..]); }
    }

    /** Creates the record in memory; only the next change writes it out. */
    method GetLocked(c: Ctx) returns (rec: Record)
      modifies this`sessions
      ensures rec == old(View()).Get(c) && View() == old(View()).Put(c, rec)
    {
      if c !in sessions { sessions := sessions[c := FRESH]; }
      rec := sessions[c];
      assert sessions == old(sessions)[c := rec];
    }

    method NeedsInit(c: Ctx, version: string) returns (needs: bool)
      modifies this`sessions
      ensures needs == old(View()).NeedsInit(c, version)
      ensures View() == old(View()).Put(c, old(View()).Get(c))
    {
      var rec := GetLocked(c);
      if rec.degraded && rec.version == version { return false; }
      return !rec.initialized || rec.version != version;
    }

    method MarkInitialized(c: Ctx, version: string)
      modifies this
      ensures View() == old(View()).MarkInitialized(c, version) && disk == View()
    {
      var rec := GetLocked(c);
      Save(c, rec.(initialized := true, degraded := false, version := version));
    }

    method MarkInitDegraded(c: Ctx, version: string)
      modifies this
      ensures View() == old(View()).MarkInitDegraded(c, version) && disk == View()
    {
      var rec := GetLocked(c);
      Save(c, rec.(degraded := true, version := version));
    }

    method SetPhase(c: Ctx, phase: Phase, turn: string)
      modifies this
      ensures View() == old(View()).SetPhase(c, phase, turn) && disk == View()
    {
      var rec := GetLocked(c);
      Save(c, rec.(phase := phase, turn := turn));
    }

    method Append(c: Ctx, turn: string, note: Note)
      modifies this
      ensures View() == old(View()).Append(c, turn, note) && disk == View()
    {
      var rec := GetLocked(c);
      seqno := seqno + 1;
      var events := rec.events + [Event(seqno, turn, note)];
      if |events| > MAX_EVENTS { events := events[|events| - MAX_EVENTS..]; }
      Save(c, rec.(events := events));
    }

    method RecordOutcome(c: Ctx, o: Outcome)
      modifies this
      ensures View() == old(View()).RecordOutcome(c, o) && disk == View()
    {
      var rec := GetLocked(c);
      Save(c, rec.(last := Some(o), phase := Idle, turn := ""));
    }

    method Save(c: Ctx, rec: Record)
      modifies this`sessions, this`disk
      ensures View() == old(View()).Put(c, rec) && disk == View()
    {
      sessions := sessions[c := rec];
      disk := Store(sessions, seqno);
    }
  }
}
