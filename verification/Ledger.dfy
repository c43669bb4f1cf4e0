/** The event-sourced invocation ledger: live records beside an append-only log,
    retention compaction of that log, and replay after a restart. */
module Ledgers {
  import D = Decimal
  import opened Options
  import opened Sequences

  /** Nanoseconds on the scheduler's clock; 0 is the zero time. */
  type Time = int

  const DAY: Time := 24 * 3600 * 1_000_000_000
  const COMPLETED_RETENTION: Time := 7 * DAY
  const INCOMPLETE_RETENTION: Time := 30 * DAY
  const MAX_UINT64: nat := 0xFFFF_FFFF_FFFF_FFFF

  datatype Status = InFlight | Completed | Failed | Queued | Recovering | Recovered | RecoveryFailed

  predicate Terminal(s: Status) {
    s.Completed? || s.Failed? || s.Recovered? || s.RecoveryFailed?
  }

  datatype Metadata = Metadata(
    source: string,
    agentName: string,
    rpcMethod: string,
    contextID: string,
    messageID: string,
    userText: string,
    speaker: string)

  datatype Record = Record(
    id: string,
    meta: Metadata,
    status: Status,
    startedAt: Time,
    finishedAt: Time,
    error: string)

  /** One line of the log. */
  datatype Event =
    | Checkpoint(nextID: nat, ts: Time)
    | Started(id: string, meta: Metadata, ts: Time)
    | Moved(id: string, status: Status, error: string, ts: Time)

  datatype Ledger = Ledger(nextID: nat, records: map<string, Record>, order: seq<string>)

  const EMPTY := Ledger(0, map[], [])

  function Id(n: nat): string {
    "inv-" + D.Print(n)
  }

  function TrimPrefix(s: string, prefix: string): string {
    if prefix <= s then s[|prefix|..] else s
  }

  // ----- Live operations -----

  function Bump(n: nat): nat {
    if n >= MAX_UINT64 then 0 else n + 1
  }

  function NewRecord(l: Ledger, meta: Metadata, now: Time): Record {
    Record(Id(Bump(l.nextID)), meta, InFlight, now, 0, "")
  }

  function StartedEvent(rec: Record): Event {
    Started(rec.id, rec.meta, rec.startedAt)
  }

  function Begun(l: Ledger, meta: Metadata, now: Time): Ledger {
    var rec := NewRecord(l, meta, now);
    Ledger(Bump(l.nextID), l.records[rec.id := rec], l.order + [rec.id])
  }

  function Updated(l: Ledger, id: string, status: Status, error: string, finish: bool, now: Time): Ledger {
    if id !in l.records then l
    else
      var rec := l.records[id].(status := status, error := error);
      l.(records := l.records[id := if finish then rec.(finishedAt := now) else rec])
  }

  /** The public operations that settle or move a record. */
  datatype Move =
    | Complete
    | Fail(msg: string)
    | Queue
    | Recover
    | RecoverDone
    | RecoverFail(msg: string)
  {
    function Status(): Status {
      match this
      case Complete => Completed
      case Fail(_) => Failed
      case Queue => Queued
      case Recover => Recovering
      case RecoverDone => Recovered
      case RecoverFail(_) => RecoveryFailed
    }

    function Error(): string {
      match this
      case Fail(m) => m
      case RecoverFail(m) => m
      case _ => ""
    }

    predicate Finishes() {
      !Queue? && !Recover?
    }
  }

  // ----- Replay -----

  function BumpTo(nextID: nat, id: string): nat {
    match D.Parse(TrimPrefix(id, "inv-"))
    case Some(n) => if nextID < n <= MAX_UINT64 then n else nextID
    case None => nextID
  }

  function MovedRecord(rec: Record, status: Status, error: string, ts: Time): Record {
    match status
    case InFlight => rec
    case Completed => rec.(status := Completed, finishedAt := ts, error := "")
    case Failed => rec.(status := Failed, finishedAt := ts, error := error)
    case Queued => rec.(status := Queued, error := "")
    case Recovering => rec.(status := Recovering, error := error)
    case Recovered => rec.(status := Recovered, finishedAt := ts, error := "")
    case RecoveryFailed => rec.(status := RecoveryFailed, finishedAt := ts, error := error)
  }

  function Replayed(l: Ledger, e: Event): Ledger {
    match e
    case Checkpoint(n, _) => l.(nextID := if n > l.nextID then n else l.nextID)
    case Started(id, meta, ts) =>
      Ledger(BumpTo(l.nextID, id),
             l.records[id := Record(id, meta, InFlight, ts, 0, "")],
             if id in l.records then l.order else l.order + [id])
    case Moved(id, status, error, ts) =>
      var l' := l.(nextID := BumpTo(l.nextID, id));
      if id !in l.records then l'
      else l'.(records := l.records[id := MovedRecord(l.records[id], status, error, ts)])
  }

  function Replay(log: seq<Event>): Ledger {
    if log == [] then EMPTY else Replayed(Replay(log[..|log| - 1]), log[|log| - 1])
  }

  // ----- Retention -----

  /** `clock` is the time read when a record carries neither time. */
  function TerminalTime(rec: Record, clock: Time): Time {
    if rec.finishedAt != 0 then rec.finishedAt
    else if rec.startedAt != 0 then rec.startedAt
    else clock
  }

  predicate Retain(rec: Record, now: Time) {
    if rec.status.Completed? then TerminalTime(rec, now) >= now - COMPLETED_RETENTION
    else (if rec.startedAt != 0 then rec.startedAt else TerminalTime(rec, now)) >= now - INCOMPLETE_RETENTION
  }

  function Retained(order: seq<string>, records: map<string, Record>, now: Time): seq<Record> {
    if order == [] then []
    else
      var prefix, id := Retained(order[..|order| - 1], records, now), order[|order| - 1];
      if id in records && Retain(records[id], now) then prefix + [records[id]] else prefix
  }

  function CompactedEvents(rec: Record, now: Time): seq<Event> {
    [StartedEvent(rec)] +
    match rec.status
    case InFlight => []
    case Failed => [Moved(rec.id, Failed, rec.error, TerminalTime(rec, now))]
    case RecoveryFailed => [Moved(rec.id, RecoveryFailed, rec.error, TerminalTime(rec, now))]
    case s => [Moved(rec.id, s, "", TerminalTime(rec, now))]
  }

  function AllCompactedEvents(rs: seq<Record>, now: Time): seq<Event> {
    if rs == [] then []
    else AllCompactedEvents(rs[..|rs| - 1], now) + CompactedEvents(rs[|rs| - 1], now)
  }

  function CompactedLog(l: Ledger, now: Time): seq<Event> {
    [Checkpoint(l.nextID, now)] + AllCompactedEvents(Retained(l.order, l.records, now), now)
  }

  function ById(rs: seq<Record>): map<string, Record> {
    if rs == [] then map[] else ById(rs[..|rs| - 1])[rs[|rs| - 1].id := rs[|rs| - 1]]
  }

  function Ids(rs: seq<Record>): seq<string> {
    if rs == [] then [] else Ids(rs[..|rs| - 1]) + [rs[|rs| - 1].id]
  }

  function Compacted(l: Ledger, now: Time): Ledger {
    var rs := Retained(l.order, l.records, now);
    Ledger(l.nextID, ById(rs), Ids(rs))
  }

  // ----- The ledger as the source keeps it -----

  class InvocationLedger {
    var nextID: nat
    var records: map<string, Record>
    var order: seq<string>
    var log: seq<Event>

    ghost function View(): Ledger
      reads this
    {
      Ledger(nextID, records, order)
    }

    /** Opens the log at its path: replay, then compaction when the file existed. */
    constructor (onDisk: seq<Event>, present: bool, now: Time)
      requires !present ==> onDisk == []
      ensures View() == if present then Compacted(Replay(onDisk), now) else EMPTY
      ensures log == if present then CompactedLog(Replay(onDisk), now) else []
    {
      nextID, records, order, log := 0, map[], [], onDisk;
      new;
      var i := 0;
      while i < |onDisk|
        invariant 0 <= i <= |onDisk| && log == onDisk
        invariant View() == Replay(onDisk[..i])
      {
        assert onDisk[..i + 1][..i] == onDisk[..i];
        ApplyReplayEvent(onDisk[i]);
        i := i + 1;
      }
      assert onDisk[..i] == onDisk;
      if present {
        CompactForRetention(now);
      }
    }

    method ApplyReplayEvent(e: Event)
      modifies this
      ensures View() == Replayed(old(View()), e) && log == old(log)
    {
      match e
      case Checkpoint(n, _) =>
        if n > nextID { nextID := n; }
      case Started(id, meta, ts) =>
        nextID := BumpTo(nextID, id);
        if id !in records { order := order + [id]; }
        records := records[id := Record(id, meta, InFlight, ts, 0, "")];
      case Moved(id, status, error, ts) =>
        nextID := BumpTo(nextID, id);
        if id !in records { return; }
        var rec := records[id];
        match status {
          case Completed => rec := rec.(status := Completed, finishedAt := ts, error := "");
          case Failed => rec := rec.(status := Failed, finishedAt := ts, error := error);
          case Queued => rec := rec.(status := Queued, error := "");
          case Recovering => rec := rec.(status := Recovering, error := error);
          case Recovered => rec := rec.(status := Recovered, finishedAt := ts, error := "");
          case RecoveryFailed => rec := rec.(status := RecoveryFailed, finishedAt := ts, error := error);
          case InFlight =>
        }
        records := records[id := rec];
    }

    method Begin(meta: Metadata, now: Time) returns (rec: Record)
      modifies this
      ensures View() == Begun(old(View()), meta, now)
      ensures rec == NewRecord(old(View()), meta, now)
      ensures log == old(log) + [StartedEvent(rec)]
    {
      nextID := if nextID >= MAX_UINT64 then 0 else nextID + 1;
      var id := Id(nextID);
      rec := Record(id, meta, InFlight, now, 0, "");
      records := records[id := rec];
      order := order + [id];
      log := log + [Started(id, meta, now)];
    }

    method UpdateStatus(id: string, status: Status, error: string, finish: bool, now: Time)
      modifies this
      ensures View() == Updated(old(View()), id, status, error, finish, now)
      ensures log == old(log) + if id in old(records) then [Moved(id, status, error, now)] else []
    {
      if id !in records { return; }
      var rec := records[id].(status := status, error := error);
      if finish {
        rec := rec.(finishedAt := now);
      }
      records := records[id := rec];
      log := log + [Moved(id, status, error, now)];
    }

    /** Complete, Fail, Queued, Recovering, Recovered and RecoveryFailed. */
    method Settle(id: string, m: Move, now: Time)
      modifies this
      ensures View() == Moving(old(View()), id, m, now)
      ensures log == old(log) + if id in old(records) then [Moved(id, m.Status(), m.Error(), now)] else []
    {
      UpdateStatus(id, m.Status(), m.Error(), m.Finishes(), now);
    }

    method CompactForRetention(now: Time)
      modifies this
      ensures View() == Compacted(old(View()), now)
      ensures log == CompactedLog(old(View()), now)
    {
      var retained: seq<Record> := [];
      var i := 0;
      while i < |order|
        invariant 0 <= i <= |order| && View() == old(View())
        invariant retained == Retained(order[..i], records, now)
      {
        assert order[..i + 1][..i] == order[..i];
        var id := order[i];
        if id in records && Retain(records[id], now) {
          retained := retained + [records[id]];
        }
        i := i + 1;
      }
      assert order[..i] == order;

      var events := [Checkpoint(nextID, now)];
      var kept: map<string, Record>, ids: seq<string> := map[], [];
      i := 0;
      while i < |retained|
        invariant 0 <= i <= |retained| && View() == old(View())
        invariant events == [Checkpoint(nextID, now)] + AllCompactedEvents(retained[..i], now)
        invariant kept == ById(retained[..i]) && ids == Ids(retained[..i])
      {
        assert retained[..i + 1][..i] == retained[..i];
        events := events + CompactedEvents(retained[i], now);
        kept := kept[retained[i].id := retained[i]];
        ids := ids + [retained[i].id];
        i := i + 1;
      }
      assert retained[..i] == retained;
      log := events;
      records := kept;
      order := ids;
    }
  }

  // ----- Runs: operations, compactions and restarts in any order -----

  /** The live ledger, the log on disk, and every id handed out so far. */
  datatype Disk = Disk(live: Ledger, log: seq<Event>, issued: seq<string>)

  const FRESH := Disk(EMPTY, [], [])

  datatype Step =
    | Begin(meta: Metadata, now: Time)
    | Move(id: string, move: Move, now: Time)
    | Compact(now: Time)
    | Restart(now: Time)

  function Moving(l: Ledger, id: string, m: Move, now: Time): Ledger {
    Updated(l, id, m.Status(), m.Error(), m.Finishes(), now)
  }

  function Apply(d: Disk, step: Step): Disk {
    match step
    case Begin(meta, now) =>
      var rec := NewRecord(d.live, meta, now);
      Disk(Begun(d.live, meta, now), d.log + [StartedEvent(rec)], d.issued + [rec.id])
    case Move(id, m, now) =>
      d.(live := Moving(d.live, id, m, now),
         log := d.log + if id in d.live.records then [Moved(id, m.Status(), m.Error(), now)] else [])
    case Compact(now) => d.(live := Compacted(d.live, now), log := CompactedLog(d.live, now))
    case Restart(now) => d.(live := Compacted(Replay(d.log), now), log := CompactedLog(Replay(d.log), now))
  }

  function Run(d: Disk, steps: seq<Step>): Disk {
    if steps == [] then d else Apply(Run(d, steps[..|steps| - 1]), steps[|steps| - 1])
  }

  /** A record as a compacted log can tell it: the finish time of a record that
      is not settled is not kept. */
  function NormalRecord(rec: Record): Record {
    if Terminal(rec.status) then rec else rec.(finishedAt := 0)
  }

  function Normal(l: Ledger): Ledger {
    l.(records := map id | id in l.records :: NormalRecord(l.records[id]))
  }

  predicate GoodRecord(rec: Record) {
    && rec.startedAt > 0
    && (Terminal(rec.status) ==> rec.finishedAt > 0)
    && (!rec.status.Failed? && !rec.status.RecoveryFailed? ==> rec.error == "")
  }

  /** No id on record is numbered above the counter, so the next one is new. */
  ghost predicate WellFormed(l: Ledger) {
    && Distinct(l.order)
    && (forall id :: id in l.order <==> id in l.records)
    && (forall id :: id in l.records ==>
      l.records[id].id == id && GoodRecord(l.records[id]) && BumpTo(l.nextID, id) == l.nextID)
  }

  lemma BumpToNew(n: nat)
    requires n < MAX_UINT64
    ensures BumpTo(n, Id(n + 1)) == n + 1 && BumpTo(n + 1, Id(n + 1)) == n + 1
  {
    D.ParsePrint(n + 1);
    assert TrimPrefix(Id(n + 1), "inv-") == D.Print(n + 1);
  }

  // ----- Appending an event and replaying it is the live operation -----

  lemma BeginReplays(l: Ledger, meta: Metadata, now: Time)
    requires WellFormed(l) && l.nextID < MAX_UINT64 && now > 0
    ensures Replayed(l, StartedEvent(NewRecord(l, meta, now))) == Begun(l, meta, now)
    ensures WellFormed(Begun(l, meta, now))
    ensures NewRecord(l, meta, now).id !in l.records
  {
    BumpToNew(l.nextID);
    var id := NewRecord(l, meta, now).id;
    assert id !in l.order;
  }

  lemma SetRecordKeepsForm(l: Ledger, id: string, rec: Record)
    requires WellFormed(l) && id in l.records && rec.id == id && GoodRecord(rec)
    ensures WellFormed(l.(records := l.records[id := rec]))
  {
    hide GoodRecord, BumpTo;
  }

  lemma MoveReplays(l: Ledger, id: string, m: Move, now: Time)
    requires WellFormed(l) && now > 0
    ensures WellFormed(Moving(l, id, m, now))
    ensures id in l.records ==> Replayed(l, Moved(id, m.Status(), m.Error(), now)) == Moving(l, id, m, now)
  {
    hide BumpTo;
    if id in l.records {
      var rec' := MovedRecord(l.records[id], m.Status(), m.Error(), now);
      assert Moving(l, id, m, now) == l.(records := l.records[id := rec']);
      SetRecordKeepsForm(l, id, rec');
    }
  }

  lemma MovedRecordNormal(a: Record, b: Record, status: Status, error: string, ts: Time)
    requires NormalRecord(a) == NormalRecord(b)
    ensures NormalRecord(MovedRecord(a, status, error, ts)) == NormalRecord(MovedRecord(b, status, error, ts))
  {
  }

  lemma NormalEqual(a: Ledger, b: Ledger)
    ensures Normal(a) == Normal(b) <==>
            && a.nextID == b.nextID && a.order == b.order && a.records.Keys == b.records.Keys
            && forall id :: id in a.records && id in b.records ==>
              NormalRecord(a.records[id]) == NormalRecord(b.records[id])
  {
    hide NormalRecord;
    assert Normal(a).records.Keys == a.records.Keys && Normal(b).records.Keys == b.records.Keys;
    if Normal(a) == Normal(b) {
      forall id | id in a.records && id in b.records
        ensures NormalRecord(a.records[id]) == NormalRecord(b.records[id]) {
        assert Normal(a).records[id] == Normal(b).records[id];
      }
    }
  }

  /** Replaying an event cannot tell a ledger from its normal form. */
  lemma ReplayedNormal(a: Ledger, b: Ledger, e: Event)
    requires Normal(a) == Normal(b)
    ensures Normal(Replayed(a, e)) == Normal(Replayed(b, e))
  {
    hide Normal, NormalRecord, MovedRecord, BumpTo;
    NormalEqual(a, b);
    NormalEqual(Replayed(a, e), Replayed(b, e));
    if e.Moved? && e.id in a.records {
      MovedRecordNormal(a.records[e.id], b.records[e.id], e.status, e.error, e.ts);
    }
  }

  lemma NormalWellFormed(a: Ledger, b: Ledger)
    requires Normal(a) == Normal(b) && WellFormed(a)
    ensures WellFormed(b)
  {
    hide Normal, BumpTo;
    NormalEqual(a, b);
  }

  // ----- Compaction -----

  lemma {:induction false} IdsLength(rs: seq<Record>)
    ensures |Ids(rs)| == |rs|
  {
    if rs != [] { IdsLength(rs[..|rs| - 1]); }
  }

  lemma {:induction false} ByIdKeys(rs: seq<Record>)
    ensures forall id :: id in ById(rs) <==> id in Ids(rs)
    ensures forall id :: id in ById(rs) ==> ById(rs)[id].id == id && ById(rs)[id] in rs
    ensures forall rec :: rec in rs ==> rec.id in Ids(rs)
  {
    if rs != [] {
      ByIdKeys(rs[..|rs| - 1]);
      assert rs[|rs| - 1] in rs;
    }
  }

  lemma {:induction false} RetainedIds(order: seq<string>, records: map<string, Record>, now: Time)
    requires Distinct(order) && forall id :: id in order ==> id in records && records[id].id == id
    ensures var rs := Retained(order, records, now);
            && (forall id :: id in Ids(rs) <==> id in order && Retain(records[id], now))
            && Distinct(Ids(rs))
  {
    hide Retain;
    if order != [] {
      var prefix, id := order[..|order| - 1], order[|order| - 1];
      RetainedIds(prefix, records, now);
      var rs, rs' := Retained(prefix, records, now), Retained(order, records, now);
      assert order == prefix + [id] && id !in prefix;
      if rs' != rs {
        assert rs'[..|rs'| - 1] == rs;
      }
    }
  }

  lemma {:induction false} RetainedAreRecords(order: seq<string>, records: map<string, Record>, now: Time)
    requires forall id :: id in order && id in records ==> records[id].id == id
    ensures forall rec :: rec in Retained(order, records, now) ==>
            rec.id in records && records[rec.id] == rec && Retain(rec, now)
  {
    hide Retain;
    if order != [] {
      RetainedAreRecords(order[..|order| - 1], records, now);
    }
  }

  lemma {:induction false} ReplayAppend(log: seq<Event>, more: seq<Event>)
    requires |more| <= 2
    ensures |more| == 1 ==> Replay(log + more) == Replayed(Replay(log), more[0])
    ensures |more| == 2 ==> Replay(log + more) == Replayed(Replayed(Replay(log), more[0]), more[1])
  {
    if |more| == 1 {
      assert (log + more)[..|log|] == log;
    } else if |more| == 2 {
      ReplayAppend(log, more[..1]);
      assert (log + more)[..|log| + 1] == log + more[..1];
    }
  }

  lemma CompactedRecordReplays(log: seq<Event>, rec: Record, now: Time)
    requires GoodRecord(rec)
    requires rec.id !in Replay(log).records && BumpTo(Replay(log).nextID, rec.id) == Replay(log).nextID
    ensures var l := Replay(log);
            Replay(log + CompactedEvents(rec, now)) ==
              Ledger(l.nextID, l.records[rec.id := NormalRecord(rec)], l.order + [rec.id])
  {
    hide Replay, BumpTo;
    ReplayAppend(log, CompactedEvents(rec, now));
    var l := Replay(log);
    var begun := Record(rec.id, rec.meta, InFlight, rec.startedAt, 0, "");
    assert Replayed(l, StartedEvent(rec)) == Ledger(l.nextID, l.records[rec.id := begun], l.order + [rec.id]);
    assert rec.status.InFlight?
           || MovedRecord(begun, rec.status, rec.error, TerminalTime(rec, now)) == NormalRecord(rec);
    assert l.records[rec.id := begun][rec.id := NormalRecord(rec)] == l.records[rec.id := NormalRecord(rec)];
  }

  function NormalRecords(m: map<string, Record>): map<string, Record> {
    map id | id in m :: NormalRecord(m[id])
  }

  lemma NormalRecordsUpdate(m: map<string, Record>, rec: Record)
    ensures NormalRecords(m[rec.id := rec]) == NormalRecords(m)[rec.id := NormalRecord(rec)]
    ensures NormalRecords(m).Keys == m.Keys
  {
  }

  lemma NoNormalRecords()
    ensures NormalRecords(map[]) == map[]
  {
  }

  lemma IdsPrefix(rs: seq<Record>)
    requires rs != [] && Distinct(Ids(rs))
    ensures Distinct(Ids(rs[..|rs| - 1])) && rs[|rs| - 1].id !in Ids(rs[..|rs| - 1])
  {
    var prefix := rs[..|rs| - 1];
    IdsLength(prefix);
    assert Ids(rs)[..|prefix|] == Ids(prefix) && Ids(rs)[|prefix|] == rs[|rs| - 1].id;
  }

  lemma CheckpointReplays(n: nat, now: Time)
    ensures Replay([Checkpoint(n, now)]) == Ledger(n, map[], [])
  {
    var log := [Checkpoint(n, now)];
    assert log[..|log| - 1] == [];
  }

  lemma {:induction false} CompactedEventsReplay(n: nat, rs: seq<Record>, now: Time)
    requires Distinct(Ids(rs))
    requires forall rec :: rec in rs ==> GoodRecord(rec) && BumpTo(n, rec.id) == n
    ensures Replay([Checkpoint(n, now)] + AllCompactedEvents(rs, now)) == Ledger(n, NormalRecords(ById(rs)), Ids(rs))
  {
    hide BumpTo, GoodRecord, NormalRecord, Replay, CompactedEvents;
    hide CompactedLog, Compacted, Normal, NormalRecords;
    var head := [Checkpoint(n, now)];
    if rs == [] {
      CheckpointReplays(n, now);
      assert head + [] == head;
      NoNormalRecords();
    } else {
      var prefix, rec := rs[..|rs| - 1], rs[|rs| - 1];
      IdsPrefix(rs);
      CompactedEventsReplay(n, prefix, now);
      ByIdKeys(prefix);
      var log := head + AllCompactedEvents(prefix, now);
      assert head + AllCompactedEvents(rs, now) == log + CompactedEvents(rec, now);
      NormalRecordsUpdate(ById(prefix), rec);
      CompactedRecordReplays(log, rec, now);
    }
  }

  /** Compaction keeps exactly the records inside their retention window, each
      unchanged, and the counter. */
  lemma CompactedKeepsExactly(l: Ledger, now: Time)
    requires WellFormed(l)
    ensures var c := Compacted(l, now);
            && WellFormed(c) && c.nextID == l.nextID
            && (forall id :: id in c.records <==> id in l.records && Retain(l.records[id], now))
            && (forall id :: id in c.records ==> c.records[id] == l.records[id])
  {
    hide Retain, GoodRecord, BumpTo;
    RetainedIds(l.order, l.records, now);
    RetainedAreRecords(l.order, l.records, now);
    ByIdKeys(Retained(l.order, l.records, now));
  }

  /** A compacted log replays to the retained records, in order, with the counter
      it was written with. */
  lemma CompactedLogReplays(l: Ledger, now: Time)
    requires WellFormed(l)
    ensures Replay(CompactedLog(l, now)) == Normal(Compacted(l, now))
  {
    hide Retain, GoodRecord, BumpTo, NormalRecord, Replay;
    RetainedIds(l.order, l.records, now);
    RetainedAreRecords(l.order, l.records, now);
    CompactedEventsReplay(l.nextID, Retained(l.order, l.records, now), now);
  }

  /** The order of what is kept is the old order: kept ids are the old ids with
      the expired ones taken out. */
  lemma {:induction false} RetainedInOrder(
      order: seq<string>, records: map<string, Record>, now: Time, expired: set<string>)
    requires forall id :: id in order ==> id in records && records[id].id == id
    requires forall id :: id in order ==> (id in expired <==> !Retain(records[id], now))
    ensures Ids(Retained(order, records, now)) == Without(order, expired)
  {
    hide Retain, Without;
    if order == [] {
      WithoutAbsent(order, expired);
    } else {
      var prefix, id := order[..|order| - 1], order[|order| - 1];
      RetainedInOrder(prefix, records, now, expired);
      assert order == prefix + [id];
      WithoutSnoc(prefix, id, expired);
      var rs := Retained(order, records, now);
      if id !in expired {
        assert rs[..|rs| - 1] == Retained(prefix, records, now);
      }
    }
  }

  /** Compacting twice at the same instant is compacting once, log included. */
  lemma CompactionIsIdempotent(l: Ledger, now: Time)
    requires WellFormed(l)
    ensures Compacted(Compacted(l, now), now) == Compacted(l, now)
    ensures CompactedLog(Compacted(l, now), now) == CompactedLog(l, now)
  {
    hide Retain, GoodRecord, BumpTo, AllCompactedEvents;
    RetainedAreRecords(l.order, l.records, now);
    var rs := Retained(l.order, l.records, now);
    ByIdKeys(rs);
    RetainedAgain(rs, ById(rs), now);
  }

  lemma RetainedSnoc(order: seq<string>, id: string, records: map<string, Record>, now: Time)
    requires id in records && Retain(records[id], now)
    ensures Retained(order + [id], records, now) == Retained(order, records, now) + [records[id]]
  {
    hide Retain;
    assert (order + [id])[..|order|] == order;
  }

  lemma {:induction false} RetainedAgain(rs: seq<Record>, records: map<string, Record>, now: Time)
    requires forall rec :: rec in rs ==> rec.id in records && records[rec.id] == rec && Retain(rec, now)
    ensures Retained(Ids(rs), records, now) == rs
  {
    hide Retain;
    if rs != [] {
      var prefix, last := rs[..|rs| - 1], rs[|rs| - 1];
      RetainedAgain(prefix, records, now);
      assert last in rs;
      RetainedSnoc(Ids(prefix), last.id, records, now);
    }
  }

  // ----- What every run keeps -----

  ghost predicate Inv(d: Disk) {
    && WellFormed(d.live)
    && Normal(Replay(d.log)) == Normal(d.live)
    && Distinct(d.issued)
    && forall id :: id in d.issued ==> BumpTo(d.live.nextID, id) == d.live.nextID
  }

  lemma NormalTwice(l: Ledger)
    ensures Normal(Normal(l)) == Normal(l)
  {
    assert Normal(Normal(l)).records == Normal(l).records;
  }

  lemma BeginKeepsInv(d: Disk, meta: Metadata, now: Time)
    requires Inv(d) && now > 0 && d.live.nextID < MAX_UINT64
    ensures Inv(Apply(d, Begin(meta, now)))
  {
    hide WellFormed, Normal, Replayed, Replay, GoodRecord;
    var rec := NewRecord(d.live, meta, now);
    BeginReplays(d.live, meta, now);
    ReplayAppend(d.log, [StartedEvent(rec)]);
    ReplayedNormal(Replay(d.log), d.live, StartedEvent(rec));
    BumpToNew(d.live.nextID);
  }

  lemma MoveKeepsInv(d: Disk, id: string, m: Move, now: Time)
    requires Inv(d) && now > 0
    ensures Inv(Apply(d, Move(id, m, now)))
  {
    hide WellFormed, Normal, Replayed, Replay, GoodRecord, BumpTo;
    MoveReplays(d.live, id, m, now);
    if id in d.live.records {
      var e := Moved(id, m.Status(), m.Error(), now);
      ReplayAppend(d.log, [e]);
      ReplayedNormal(Replay(d.log), d.live, e);
    } else {
      assert d.log + [] == d.log;
    }
  }

  lemma CompactKeepsInv(d: Disk, from: Ledger, now: Time)
    requires Inv(d) && Normal(from) == Normal(d.live)
    ensures Inv(d.(live := Compacted(from, now), log := CompactedLog(from, now)))
  {
    NormalWellFormed(d.live, from);
    NormalEqual(from, d.live);
    CompactedKeepsExactly(from, now);
    CompactedLogReplays(from, now);
    NormalTwice(Compacted(from, now));
    hide WellFormed, Normal, Replay, GoodRecord, BumpTo, Retain, CompactedLog;
  }

  lemma StepKeepsInv(d: Disk, step: Step)
    requires Inv(d) && step.now > 0 && (step.Begin? ==> d.live.nextID < MAX_UINT64)
    ensures Inv(Apply(d, step))
    ensures Apply(d, step).live.nextID == d.live.nextID + if step.Begin? then 1 else 0
  {
    NormalEqual(Replay(d.log), d.live);
    assert Normal(Replay(d.log)) == Normal(d.live);
    hide Inv, Replay, Normal;
    match step
    case Begin(meta, now) => BeginKeepsInv(d, meta, now);
    case Move(id, m, now) => MoveKeepsInv(d, id, m, now);
    case Compact(now) => CompactKeepsInv(d, d.live, now);
    case Restart(now) => CompactKeepsInv(d, Replay(d.log), now);
  }

  /** In every mix of begins, settlements, compactions and restarts, replaying
      the log gives the live ledger up to the finish times a compacted log does
      not keep; the only bound is the 64-bit counter. */
  lemma {:induction false} EveryRunKeepsInv(steps: seq<Step>)
    requires |steps| <= MAX_UINT64 && forall step :: step in steps ==> step.now > 0
    ensures Inv(Run(FRESH, steps)) && Run(FRESH, steps).live.nextID <= |steps|
  {
    if steps == [] {
      assert Normal(Replay([])) == Normal(EMPTY);
    } else {
      hide Inv, Apply;
      var prefix, last := steps[..|steps| - 1], steps[|steps| - 1];
      assert last in steps;
      EveryRunKeepsInv(prefix);
      StepKeepsInv(Run(FRESH, prefix), last);
    }
  }

  /** No invocation id is handed out twice, even when the highest-numbered
      records have been pruned and the scheduler was restarted in between. */
  lemma NoIdIsIssuedTwice(steps: seq<Step>)
    requires |steps| <= MAX_UINT64 && forall step :: step in steps ==> step.now > 0
    ensures Distinct(Run(FRESH, steps).issued)
    ensures forall id :: id in Run(FRESH, steps).live.records ==>
            BumpTo(Run(FRESH, steps).live.nextID, id) == Run(FRESH, steps).live.nextID
  {
    EveryRunKeepsInv(steps);
  }

  /** Without compaction the log is the ledger: replaying it rebuilds the live
      records, their order and the counter exactly. */
  lemma {:induction false} ReplayIsExact(steps: seq<Step>)
    requires |steps| <= MAX_UINT64
    requires forall step :: step in steps ==> step.now > 0 && (step.Begin? || step.Move?)
    ensures Replay(Run(FRESH, steps).log) == Run(FRESH, steps).live
  {
    if steps != [] {
      hide WellFormed, Replayed, Begun, Moving, Replay;
      var prefix, last := steps[..|steps| - 1], steps[|steps| - 1];
      assert last in steps;
      ReplayIsExact(prefix);
      EveryRunKeepsInv(prefix);
      var d := Run(FRESH, prefix);
      match last {
        case Begin(meta, now) =>
          BeginReplays(d.live, meta, now);
          ReplayAppend(d.log, [StartedEvent(NewRecord(d.live, meta, now))]);
        case Move(id, m, now) =>
          MoveReplays(d.live, id, m, now);
          if id in d.live.records {
            ReplayAppend(d.log, [Moved(id, m.Status(), m.Error(), now)]);
          } else {
            assert d.log + [] == d.log;
          }
      }
    }
  }

  /** Retention cannot tell a ledger from its normal form either, so a crash and
      restart leaves exactly the records a compaction of the live ledger at that
      instant would have left. */
  lemma RestartKeepsRetained(d: Disk, now: Time)
    requires Inv(d)
    ensures Normal(Apply(d, Restart(now)).live) == Normal(Compacted(d.live, now))
  {
    CompactedNormal(Replay(d.log), d.live, now);
  }

  lemma RetainNormal(a: Record, b: Record, now: Time)
    requires NormalRecord(a) == NormalRecord(b) && GoodRecord(a) && GoodRecord(b)
    ensures Retain(a, now) <==> Retain(b, now)
  {
  }

  lemma CompactedNormal(a: Ledger, b: Ledger, now: Time)
    requires Normal(a) == Normal(b) && WellFormed(b)
    ensures Normal(Compacted(a, now)) == Normal(Compacted(b, now))
  {
    hide Normal, BumpTo, Retain, GoodRecord, NormalRecord;
    NormalWellFormed(b, a);
    NormalEqual(a, b);
    forall id | id in a.records ensures Retain(a.records[id], now) <==> Retain(b.records[id], now) {
      RetainNormal(a.records[id], b.records[id], now);
    }
    var expired := set id | id in a.records && !Retain(a.records[id], now);
    assert Compacted(a, now).order == Compacted(b, now).order by {
      RetainedInOrder(a.order, a.records, now, expired);
      RetainedInOrder(b.order, b.records, now, expired);
    }
    CompactedKeepsExactly(a, now);
    CompactedKeepsExactly(b, now);
    hide Compacted, WellFormed;
    NormalEqual(Compacted(a, now), Compacted(b, now));
  }

  // ----- What the ledger tells of an invocation -----

  /** Past its window, in nanoseconds: seven days after it finished for a completed
      record, thirty days after it started for any other. */
  predicate Outdated(rec: Record, now: Time) {
    if rec.status == Completed then now - rec.finishedAt > 604_800_000_000_000
    else now - rec.startedAt > 2_592_000_000_000_000
  }

  /** A compaction drops exactly what is past its window and changes nothing else. */
  lemma CompactionDropsTheOutdated(l: Ledger, now: Time, id: string)
    requires WellFormed(l)
    ensures var c := Compacted(l, now);
            && (id in c.records <==> id in l.records && !Outdated(l.records[id], now))
            && (id in c.records ==> c.records[id] == l.records[id])
  {
    hide BumpTo, Compacted;
    CompactedKeepsExactly(l, now);
    if id in l.records { WindowIs(l.records[id], now); }
    hide Retain, Outdated;
  }

  lemma WindowIs(rec: Record, now: Time)
    requires GoodRecord(rec)
    ensures Retain(rec, now) <==> !Outdated(rec, now)
  {
  }

  /** What a later compaction keeps, an earlier one kept. */
  lemma CompactionIsMonotone(l: Ledger, now: Time, later: Time, id: string)
    requires WellFormed(l) && now <= later && id in Compacted(l, later).records
    ensures id in Compacted(l, now).records
  {
    hide BumpTo, Compacted, WellFormed;
    CompactionDropsTheOutdated(l, now, id);
    CompactionDropsTheOutdated(l, later, id);
  }

  function Begins(steps: seq<Step>): nat {
    if steps == [] then 0 else Begins(steps[..|steps| - 1]) + if steps[|steps| - 1].Begin? then 1 else 0
  }

  /** A record after one move of it. The finish time of a record that is not settled
      is of no consequence and kept as none. */
  function AfterMove(rec: Record, m: Move, now: Time): Record {
    match m
    case Complete => rec.(status := Completed, error := "", finishedAt := now)
    case Fail(msg) => rec.(status := Failed, error := msg, finishedAt := now)
    case Queue => rec.(status := Queued, error := "", finishedAt := 0)
    case Recover => rec.(status := Recovering, error := "", finishedAt := 0)
    case RecoverDone => rec.(status := Recovered, error := "", finishedAt := now)
    case RecoverFail(msg) => rec.(status := RecoveryFailed, error := msg, finishedAt := now)
  }

  /** What the steps tell of one invocation, each by itself: the n-th begin is about
      inv-n, a move is about its own record, and a compaction or a restart ends the
      story of a record that is past its window. */
  function Told(steps: seq<Step>, id: string): Option<Record> {
    if steps == [] then None
    else
      var prefix, last := steps[..|steps| - 1], steps[|steps| - 1];
      var rec := Told(prefix, id);
      match last
      case Begin(meta, now) =>
        if id == "inv-" + D.Print(Begins(prefix) + 1) then Some(Record(id, meta, InFlight, now, 0, "")) else rec
      case Move(i, m, now) => if i == id && rec.Some? then Some(AfterMove(rec.value, m, now)) else rec
      case Compact(now) => if rec.Some? && Outdated(rec.value, now) then None else rec
      case Restart(now) => if rec.Some? && Outdated(rec.value, now) then None else rec
  }

  ghost predicate Tells(l: Ledger, id: string, told: Option<Record>) {
    if told.None? then id !in l.records else id in l.records && NormalRecord(l.records[id]) == told.value
  }

  lemma MoveTells(l: Ledger, i: string, m: Move, now: Time, id: string, told: Option<Record>)
    requires Tells(l, id, told)
    ensures Tells(Moving(l, i, m, now), id,
                  if i == id && told.Some? then Some(AfterMove(told.value, m, now)) else told)
  {
  }

  lemma CompactionTells(l: Ledger, now: Time, id: string, told: Option<Record>)
    requires WellFormed(l) && Tells(l, id, told)
    ensures Tells(Compacted(l, now), id, if told.Some? && Outdated(told.value, now) then None else told)
  {
    CompactionDropsTheOutdated(l, now, id);
    hide Compacted, WellFormed;
  }

  lemma NormalTells(a: Ledger, b: Ledger, id: string, told: Option<Record>)
    requires Normal(a) == Normal(b) && Tells(a, id, told)
    ensures Tells(b, id, told)
  {
    hide Normal, NormalRecord;
    NormalEqual(a, b);
  }

  lemma BeginTells(l: Ledger, meta: Metadata, now: Time, id: string, told: Option<Record>)
    requires Tells(l, id, told) && l.nextID < MAX_UINT64
    ensures Tells(Begun(l, meta, now), id,
                  if id == "inv-" + D.Print(l.nextID + 1) then Some(Record(id, meta, InFlight, now, 0, "")) else told)
  {
    hide D.Print;
  }

  lemma StepTells(d: Disk, step: Step, id: string, told: Option<Record>)
    requires Inv(d) && Tells(d.live, id, told) && (step.Begin? ==> d.live.nextID < MAX_UINT64)
    ensures Tells(Apply(d, step).live, id,
                  match step
                  case Begin(meta, now) =>
                    if id == "inv-" + D.Print(d.live.nextID + 1) then Some(Record(id, meta, InFlight, now, 0, ""))
                    else told
                  case Move(i, m, now) =>
                    if i == id && told.Some? then Some(AfterMove(told.value, m, now)) else told
                  case Compact(now) => if told.Some? && Outdated(told.value, now) then None else told
                  case Restart(now) => if told.Some? && Outdated(told.value, now) then None else told)
  {
    hide Tells, Compacted, Moving, Begun, WellFormed, Normal, Replay, D.Print, AfterMove, Outdated;
    match step
    case Begin(meta, now) => BeginTells(d.live, meta, now, id, told);
    case Move(i, m, now) => MoveTells(d.live, i, m, now, id, told);
    case Compact(now) => CompactionTells(d.live, now, id, told);
    case Restart(now) =>
      NormalTells(d.live, Replay(d.log), id, told);
      NormalWellFormed(d.live, Replay(d.log));
      CompactionTells(Replay(d.log), now, id, told);
  }

  /** In every mix of begins, moves, compactions and restarts, the ledger holds of each
      invocation exactly what the steps about it tell, and no other record. */
  lemma {:induction false} LedgerTellsEachInvocation(steps: seq<Step>, id: string)
    requires |steps| <= MAX_UINT64 && forall step :: step in steps ==> step.now > 0
    ensures Tells(Run(FRESH, steps).live, id, Told(steps, id))
    ensures Run(FRESH, steps).live.nextID == Begins(steps) <= |steps|
  {
    hide Inv, Apply, AfterMove, Outdated, D.Print;
    if steps != [] {
      hide Tells;
      var prefix, last := steps[..|steps| - 1], steps[|steps| - 1];
      assert last in steps;
      LedgerTellsEachInvocation(prefix, id);
      EveryRunKeepsInv(prefix);
      StepKeepsInv(Run(FRESH, prefix), last);
      StepTells(Run(FRESH, prefix), last, id, Told(prefix, id));
    }
  }

  // ----- Logs of any kind -----

  lemma BumpToMonotone(n: nat, m: nat, id: string)
    requires BumpTo(n, id) == n <= m
    ensures BumpTo(m, id) == m
  {
    hide D.Parse;
  }

  lemma ReplayedPasses(l: Ledger, e: Event)
    ensures l.nextID <= Replayed(l, e).nextID
    ensures !e.Checkpoint? ==> BumpTo(Replayed(l, e).nextID, e.id) == Replayed(l, e).nextID
    ensures e.Checkpoint? ==> e.nextID <= Replayed(l, e).nextID
  {
    hide D.Parse, MovedRecord;
  }

  /** Whatever a log holds, even moves of records whose start was lost: the counter it
      replays to is past every id in it and past every checkpoint, so that none of
      these ids is handed out again. */
  lemma {:induction false} ReplayPassesEveryId(log: seq<Event>, i: nat)
    requires i < |log|
    ensures var n := Replay(log).nextID;
            if log[i].Checkpoint? then log[i].nextID <= n else BumpTo(n, log[i].id) == n
  {
    hide Replayed, BumpTo;
    var k := |log| - 1;
    var before := Replay(log[..k]);
    ReplayedPasses(before, log[k]);
    if i < k {
      ReplayPassesEveryId(log[..k], i);
      assert log[..k][i] == log[i];
      if !log[i].Checkpoint? { BumpToMonotone(before.nextID, Replay(log).nextID, log[i].id); }
    }
  }

  /** A record without a finish time is judged by its start, one without a start by its
      end, and one with neither is kept. */
  lemma UndatedRecords(rec: Record, now: Time)
    ensures rec.finishedAt == 0 && rec.startedAt == 0 ==> Retain(rec, now)
    ensures rec.finishedAt == 0 && rec.startedAt != 0 && rec.status == Completed ==>
            (Retain(rec, now) <==> now - rec.startedAt <= 604_800_000_000_000)
    ensures rec.startedAt == 0 && rec.finishedAt != 0 && rec.status != Completed ==>
            (Retain(rec, now) <==> now - rec.finishedAt <= 2_592_000_000_000_000)
  {
  }

  // ----- The order of the records -----

  /** Ids that were handed out and whose records are gone. */
  function Dropped(d: Disk): set<string> {
    set id | id in d.issued && id !in d.live.records
  }

  /** The records are listed in the order in which their ids were handed out. */
  ghost predicate InOrder(d: Disk) {
    d.live.order == Without(d.issued, Dropped(d))
  }

  lemma BeginInOrder(d: Disk, meta: Metadata, now: Time)
    requires Inv(d) && InOrder(d) && now > 0 && d.live.nextID < MAX_UINT64
    ensures InOrder(Apply(d, Begin(meta, now)))
  {
    var d', id := Apply(d, Begin(meta, now)), NewRecord(d.live, meta, now).id;
    BeginIssuesNew(d, meta, now);
    hide Inv, Without, Id, Bump;
    assert d'.issued == d.issued + [id] && d'.live.order == d.live.order + [id];
    WithoutSame(d.issued, Dropped(d), Dropped(d'));
    WithoutSnoc(d.issued, id, Dropped(d'));
  }

  lemma BeginIssuesNew(d: Disk, meta: Metadata, now: Time)
    requires Inv(d) && now > 0 && d.live.nextID < MAX_UINT64
    ensures NewRecord(d.live, meta, now).id !in d.issued
  {
    BumpToNew(d.live.nextID);
    hide WellFormed, Normal, Replay;
  }

  lemma CompactInOrder(d: Disk, from: Ledger, now: Time)
    requires Inv(d) && InOrder(d) && Normal(from) == Normal(d.live)
    ensures InOrder(d.(live := Compacted(from, now), log := CompactedLog(from, now)))
  {
    NormalWellFormed(d.live, from);
    NormalEqual(from, d.live);
    var d' := d.(live := Compacted(from, now), log := CompactedLog(from, now));
    var expired := set id | id in from.records && !Retain(from.records[id], now);
    CompactedKeepsExactly(from, now);
    RetainedInOrder(from.order, from.records, now, expired);
    WithoutTwice(d.issued, Dropped(d), expired);
    hide Without, Normal, Retain, BumpTo, GoodRecord, CompactedLog;
    forall x | x in d.issued ensures x in Dropped(d) + expired <==> x in Dropped(d') { }
    WithoutSame(d.issued, Dropped(d) + expired, Dropped(d'));
  }

  lemma StepInOrder(d: Disk, step: Step)
    requires Inv(d) && InOrder(d) && step.now > 0 && (step.Begin? ==> d.live.nextID < MAX_UINT64)
    ensures InOrder(Apply(d, step))
  {
    hide Without, WellFormed, Normal, Replay, Compacted, CompactedLog;
    match step
    case Begin(meta, now) => BeginInOrder(d, meta, now);
    case Move(id, m, now) =>
      var d' := Apply(d, step);
      assert d'.live.records.Keys == d.live.records.Keys;
      assert Dropped(d') == Dropped(d);
    case Compact(now) => CompactInOrder(d, d.live, now);
    case Restart(now) => CompactInOrder(d, Replay(d.log), now);
  }

  /** In every run. */
  lemma {:induction false} RecordsStayInOrder(steps: seq<Step>)
    requires |steps| <= MAX_UINT64 && forall step :: step in steps ==> step.now > 0
    ensures InOrder(Run(FRESH, steps))
  {
    if steps != [] {
      hide Inv, Apply, InOrder;
      var prefix, last := steps[..|steps| - 1], steps[|steps| - 1];
      assert last in steps;
      RecordsStayInOrder(prefix);
      EveryRunKeepsInv(prefix);
      StepInOrder(Run(FRESH, prefix), last);
    }
  }
}
