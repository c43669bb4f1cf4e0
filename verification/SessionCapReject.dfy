/** Under reject the racing lookups have a bound of their own. */
module RejectCaps {
  import opened Options
  import opened SessionCaps
  import P = SessionPools

  /** What is noted of a scan: when it began, which of the sessions of other contexts
      that were open then have stayed open, which lookups were in progress then, and
      which slots it has found a session in. */
  datatype Mark = Mark(at: nat, stayed: set<Slot>, held: set<nat>, seen: set<Slot>)

  /** Notes beside a run: the lookup that last went through to each context, the marks
      of the scans, and the latest one that led to a pass. */
  datatype Book = Book(tick: nat, owner: map<P.Ctx, nat>, marks: map<nat, Mark>, best: Mark)

  const BLANK := Book(1, map[], map[], Mark(0, {}, {}, {}))

  function Trim(m: Mark, open: set<Slot>): Mark {
    m.(stayed := m.stayed * open)
  }

  function Trimmed(b: Book, open: set<Slot>): Book {
    b.(best := Trim(b.best, open), marks := map id | id in b.marks :: Trim(b.marks[id], open))
  }

  function MarkOf(b: Book, r: Race, me: nat): Mark
    requires me in r.pending
  {
    var others := set s | s in Open(r.pool) && s.c != r.pending[me].slot.c;
    Mark(b.tick, others, r.pending.Keys, {})
  }

  function Snapped(b: Book, r: Race, me: nat): Book
    requires me in r.pending
  {
    b.(tick := b.tick + 1, marks := b.marks[me := MarkOf(b, r, me)])
  }

  function Seen(b: Book, r: Race, me: nat, s: Slot): Book
    requires me in b.marks
  {
    if Live(r, s) then b.(marks := b.marks[me := b.marks[me].(seen := b.marks[me].seen + {s})]) else b
  }

  function Passed(b: Book, me: nat): Book
    requires me in b.marks
  {
    if b.marks[me].at > b.best.at then b.(best := b.marks[me]) else b
  }

  function Note(b: Book, r: Race, step: Step): Book {
    if !Enabled(r, step) then b
    else
      var b' := Trimmed(b, Open(Apply(r, step).pool));
      match step
      case Snap(me) => Snapped(b', r, me)
      case Read(me, s) => if me in b'.marks then Seen(b', r, me, s) else b'
      case Decide(me) =>
        if me in b'.marks && Passes(r.pool.cfg, r.pending[me].stage) then Passed(b', me) else b'
      case Commit(me, _, _) => b'.(owner := b.owner[r.pending[me].slot.c := me])
      case _ => b'
  }

  function Notes(r: Race, steps: seq<Step>): Book {
    if steps == [] then BLANK
    else
      var prefix, last := steps[..|steps| - 1], steps[|steps| - 1];
      Note(Notes(r, prefix), Run(r, prefix), last)
  }

  // ----- The invariant -----

  // A scan reads the slots at different times and can overlook sessions, so what it
  // counted is no bound by itself. But take the lookup that began its scan last among
  // those that passed: every session open before that is one it counted, unless it
  // has been closed since, and every other one comes from a lookup that was in
  // progress then.

  predicate IsReady(r: Race, id: nat) {
    id in r.pending && r.pending[id].stage.Ready?
  }

  predicate Scans(r: Race, id: nat) {
    id in r.pending && r.pending[id].stage.Scanning?
  }

  /** Some lookup of c is free to install. */
  ghost predicate Awaited(r: Race, c: P.Ctx) {
    exists id :: IsReady(r, id) && r.pending[id].slot.c == c
  }

  /** Every lookup goes through once, and is over then. */
  ghost predicate Ids(r: Race, b: Book) {
    && (forall id :: id in r.pending ==> id < r.started && !r.pending[id].stage.Evicting?)
    && (forall c :: c in b.owner ==> b.owner[c] < r.started && b.owner[c] !in r.pending)
    && (forall c, d :: c in b.owner && d in b.owner && b.owner[c] == b.owner[d] ==> c == d)
  }

  /** A scan has seen, or has still to read, every session that has stayed open. */
  ghost predicate Covers(r: Race, m: Mark, k: Stage)
    requires k.Scanning?
  {
    m.stayed <= Open(r.pool) && m.stayed <= m.seen + k.left && |m.seen| <= k.active && |m.held| <= r.callers
  }

  ghost predicate Covered(r: Race, b: Book) {
    forall id :: Scans(r, id) ==>
      id in b.marks && b.marks[id].at < b.tick && id in b.marks[id].held && Covers(r, b.marks[id], r.pending[id].stage)
  }

  /** The lookups that are through with their scans, or began them no later, were
      in progress then. */
  ghost predicate Holding(r: Race, b: Book, m: Mark) {
    && (forall id :: IsReady(r, id) ==> id in m.held)
    && (forall id :: Scans(r, id) && id in b.marks && b.marks[id].at <= m.at ==> id in m.held)
  }

  /** Every session has stayed open since, or is paid for by a lookup that was in
      progress then; `skip` is the context of a lookup that may yet pay. */
  ghost predicate Paid(r: Race, b: Book, m: Mark, skip: set<P.Ctx>) {
    forall s :: s in Open(r.pool) ==>
      || s in m.stayed || s.c in skip || Awaited(r, s.c)
      || (s.c in b.owner && b.owner[s.c] in m.held)
  }

  ghost predicate Best(r: Race, b: Book) {
    && b.best.at < b.tick && b.best.stayed <= Open(r.pool) && |b.best.stayed| < r.pool.cfg.maxActive
    && |b.best.held| <= r.callers && Holding(r, b, b.best) && Paid(r, b, b.best, {})
  }

  /** The scans that may become the latest to lead to a pass. */
  ghost predicate Candidates(r: Race, b: Book) {
    forall id :: Scans(r, id) && id in b.marks && b.marks[id].at > b.best.at ==>
      Holding(r, b, b.marks[id]) && Paid(r, b, b.marks[id], {r.pending[id].slot.c})
  }

  ghost predicate Inv(r: Race, b: Book) {
    && r.pool.cfg.policy.Reject? && r.pool.cfg.maxActive > 0 && |r.pending| <= r.callers
    && Ids(r, b) && Covered(r, b) && Best(r, b) && Candidates(r, b)
  }

  // ----- Steps that open nothing and let nobody pass -----

  /** From r to q sessions are closed and lookups come or go, but none passes, goes
      through or moves on in its scan. */
  ghost predicate Shrinks(r: Race, q: Race) {
    && Open(q.pool) <= Open(r.pool) && q.pool.cfg == r.pool.cfg && q.callers == r.callers
    && |q.pending| <= q.callers && NobodyPasses(r, q)
  }

  ghost predicate NobodyPasses(r: Race, q: Race) {
    && q.started >= r.started
    && (forall id :: id in q.pending ==>
      (id in r.pending || r.started <= id < q.started) && !q.pending[id].stage.Evicting?)
    && (forall id :: IsReady(r, id) ==> IsReady(q, id))
    && (forall id :: IsReady(q, id) || Scans(q, id) ==> id in r.pending && q.pending[id] == r.pending[id])
  }

  lemma ShrinkKeepsMark(r: Race, b: Book, q: Race, m: Mark, skip: set<P.Ctx>)
    requires Shrinks(r, q) && Holding(r, b, m) && Paid(r, b, m, skip)
    ensures var b' := Trimmed(b, Open(q.pool));
            Holding(q, b', Trim(m, Open(q.pool))) && Paid(q, b', Trim(m, Open(q.pool)), skip)
  {
    forall c | Awaited(r, c) ensures Awaited(q, c) {
      var id :| IsReady(r, id) && r.pending[id].slot.c == c;
      assert IsReady(q, id);
    }
  }

  lemma ShrinkKeepsCovered(r: Race, b: Book, q: Race)
    requires Shrinks(r, q) && Covered(r, b)
    ensures Covered(q, Trimmed(b, Open(q.pool)))
  {
  }

  lemma ShrinkKeepsBest(r: Race, b: Book, q: Race)
    requires Shrinks(r, q) && Best(r, b)
    ensures Best(q, Trimmed(b, Open(q.pool)))
  {
    ShrinkKeepsMark(r, b, q, b.best, {});
    P.FewerFit(Trim(b.best, Open(q.pool)).stayed, b.best.stayed);
    hide Holding, Paid, Open;
  }

  lemma ShrinkKeepsCandidates(r: Race, b: Book, q: Race)
    requires Shrinks(r, q) && Candidates(r, b)
    ensures Candidates(q, Trimmed(b, Open(q.pool)))
  {
    var b' := Trimmed(b, Open(q.pool));
    forall id | Scans(q, id) && id in b'.marks && b'.marks[id].at > b'.best.at
      ensures Holding(q, b', b'.marks[id]) && Paid(q, b', b'.marks[id], {q.pending[id].slot.c})
    {
      ShrinkKeepsMark(r, b, q, b.marks[id], {r.pending[id].slot.c});
    }
    hide Holding, Paid, Open;
  }

  lemma ShrinkKeepsInv(r: Race, b: Book, q: Race)
    requires Inv(r, b) && Shrinks(r, q)
    ensures Inv(q, Trimmed(b, Open(q.pool)))
  {
    ShrinkKeepsCovered(r, b, q);
    ShrinkKeepsBest(r, b, q);
    ShrinkKeepsCandidates(r, b, q);
    assert Ids(q, Trimmed(b, Open(q.pool)));
    hide Covered, Candidates, Open, Best, Ids, Trimmed;
  }

  // ----- The steps of a scan -----

  /** Lookups but `me` are as they were, and me is free to install in neither state. */
  ghost predicate Moves(r: Race, q: Race, me: nat) {
    && me in r.pending && me in q.pending && q == r.(pending := r.pending[me := q.pending[me]])
    && q.pending[me].slot == r.pending[me].slot && !IsReady(r, me) && Scans(q, me)
  }

  /** And their marks; that of `me` is new, or of the same time. */
  ghost predicate Remarks(r: Race, b: Book, b': Book, me: nat) {
    && me in b'.marks && b' == b.(tick := b'.tick, marks := b.marks[me := b'.marks[me]]) && b'.tick >= b.tick
    && (b'.marks[me].at == b.tick || (Scans(r, me) && me in b.marks && b'.marks[me].at == b.marks[me].at))
  }

  lemma MoveKeepsMark(r: Race, q: Race, me: nat, b: Book, b': Book, m: Mark, skip: set<P.Ctx>)
    requires Moves(r, q, me) && Remarks(r, b, b', me) && m.at < b.tick && Holding(r, b, m) && Paid(r, b, m, skip)
    ensures Holding(q, b', m) && Paid(q, b', m, skip)
  {
    forall c | Awaited(r, c) ensures Awaited(q, c) {
      var id :| IsReady(r, id) && r.pending[id].slot.c == c;
      assert IsReady(q, id);
    }
  }

  lemma MoveKeepsCandidates(r: Race, q: Race, me: nat, b: Book, b': Book)
    requires Moves(r, q, me) && Remarks(r, b, b', me) && Covered(r, b) && Candidates(r, b)
    requires b'.marks[me].at > b.best.at ==>
               Holding(q, b', b'.marks[me]) && Paid(q, b', b'.marks[me], {q.pending[me].slot.c})
    ensures Candidates(q, b')
  {
    hide Holding, Paid, Covers;
    forall id | Scans(q, id) && id in b'.marks && b'.marks[id].at > b'.best.at && id != me
      ensures Holding(q, b', b'.marks[id]) && Paid(q, b', b'.marks[id], {q.pending[id].slot.c})
    {
      MoveKeepsMark(r, q, me, b, b', b.marks[id], {r.pending[id].slot.c});
    }
  }

  lemma MoveKeepsInv(r: Race, q: Race, me: nat, b: Book, b': Book)
    requires Inv(r, b) && Moves(r, q, me) && Remarks(r, b, b', me) && Covered(q, b') && Candidates(q, b')
    ensures Inv(q, b')
  {
    assert q.pending.Keys == r.pending.Keys;
    assert |q.pending| == |q.pending.Keys| && |r.pending| == |r.pending.Keys|;
    MoveKeepsMark(r, q, me, b, b', b.best, {});
    hide Holding, Paid, Covered, Candidates;
  }

  lemma SnapKeepsCovered(r: Race, b: Book, me: nat)
    requires Enabled(r, Snap(me)) && Covered(r, b) && |r.pending| <= r.callers
    ensures Covered(Snaps(r, me), Snapped(b, r, me))
  {
    assert |r.pending| == |r.pending.Keys|;
    hide Open, Slots;
    forall s | s in Open(r.pool) ensures s in Slots(r.pool) { }
  }

  lemma SnapKeepsInv(r: Race, b: Book, me: nat)
    requires Inv(r, b) && Enabled(r, Snap(me))
    ensures Inv(Snaps(r, me), Snapped(b, r, me))
  {
    var q, b' := Snaps(r, me), Snapped(b, r, me);
    SnapKeepsCovered(r, b, me);
    assert Moves(r, q, me) && Remarks(r, b, b', me);
    assert Holding(q, b', b'.marks[me]) && Paid(q, b', b'.marks[me], {q.pending[me].slot.c});
    hide Snaps, MarkOf, Snapped, Moves, Remarks, Covered, Candidates, Holding, Paid, Ids, Best;
    MoveKeepsCandidates(r, q, me, b, b');
    MoveKeepsInv(r, q, me, b, b');
  }

  lemma ReadKeepsCovered(r: Race, b: Book, me: nat, s: Slot)
    requires Covered(r, b) && Enabled(r, Read(me, s)) && me in b.marks
    ensures Covered(Reads(r, me, s), Seen(b, r, me, s))
  {
    assert s in Open(r.pool) ==> Live(r, s);
    hide Open, Live;
  }

  lemma ReadKeepsInv(r: Race, b: Book, me: nat, s: Slot)
    requires Inv(r, b) && Enabled(r, Read(me, s)) && me in b.marks
    ensures Inv(Reads(r, me, s), Seen(b, r, me, s))
  {
    var q, b' := Reads(r, me, s), Seen(b, r, me, s);
    ReadKeepsCovered(r, b, me, s);
    assert Moves(r, q, me) by { hide Live, At; }
    assert Remarks(r, b, b', me);
    ReadKeepsMark(r, q, b, b', me);
    hide Reads, Seen, Moves, Remarks, Covered, Candidates, Holding, Paid, Ids, Best;
    MoveKeepsCandidates(r, q, me, b, b');
    MoveKeepsInv(r, q, me, b, b');
  }

  lemma ReadKeepsMark(r: Race, q: Race, b: Book, b': Book, me: nat)
    requires Moves(r, q, me) && Remarks(r, b, b', me) && Covered(r, b) && Candidates(r, b) && Scans(r, me)
    requires me in b.marks && b'.marks[me] == b.marks[me].(seen := b'.marks[me].seen)
    ensures b'.marks[me].at > b.best.at ==>
              Holding(q, b', b'.marks[me]) && Paid(q, b', b'.marks[me], {q.pending[me].slot.c})
  {
    if b.marks[me].at > b.best.at {
      MoveKeepsMark(r, q, me, b, b', b.marks[me], {r.pending[me].slot.c});
    }
  }

  // ----- A lookup passes -----

  lemma PassKeepsMark(r: Race, b: Book, b': Book, me: nat, m: Mark, skip: set<P.Ctx>)
    requires Scans(r, me) && me in m.held && Holding(r, b, m) && Paid(r, b, m, skip)
    requires b'.owner == b.owner && b'.marks == b.marks
    ensures Holding(Go(r, me, Ready), b', m) && Paid(Go(r, me, Ready), b', m, skip - {r.pending[me].slot.c})
  {
    var q := Go(r, me, Ready);
    assert IsReady(q, me) && Awaited(q, r.pending[me].slot.c);
    forall c | Awaited(r, c) ensures Awaited(q, c) {
      var id :| IsReady(r, id) && r.pending[id].slot.c == c;
      assert IsReady(q, id);
    }
  }

  /** The latest scan to lead to a pass has counted what has stayed open. */
  lemma PassKeepsBest(r: Race, b: Book, me: nat)
    requires Inv(r, b) && Enabled(r, Decide(me)) && Passes(r.pool.cfg, r.pending[me].stage) && me in b.marks
    ensures Best(Go(r, me, Ready), Passed(b, me))
  {
    var q, b', m := Go(r, me, Ready), Passed(b, me), b.marks[me];
    assert m.at < b.tick && me in m.held && Covers(r, m, r.pending[me].stage);
    if m.at > b.best.at {
      P.FewerFit(m.stayed, m.seen);
      PassKeepsMark(r, b, b', me, m, {r.pending[me].slot.c});
      assert {r.pending[me].slot.c} - {r.pending[me].slot.c} == {};
    } else {
      PassKeepsMark(r, b, b', me, b.best, {});
      assert {} - {r.pending[me].slot.c} == {};
    }
    hide Holding, Paid, Open, Covered, Candidates, Ids;
  }

  lemma PassKeepsCandidates(r: Race, b: Book, me: nat)
    requires Covered(r, b) && Candidates(r, b) && Enabled(r, Decide(me)) && me in b.marks
    ensures Candidates(Go(r, me, Ready), Passed(b, me))
  {
    var q, b' := Go(r, me, Ready), Passed(b, me);
    forall id | Scans(q, id) && id in b'.marks && b'.marks[id].at > b'.best.at
      ensures Holding(q, b', b'.marks[id]) && Paid(q, b', b'.marks[id], {q.pending[id].slot.c})
    {
      assert Scans(r, id) && Scans(r, me);
      PassKeepsMark(r, b, b', me, b.marks[id], {r.pending[id].slot.c});
    }
    hide Paid;
  }

  lemma PassKeepsInv(r: Race, b: Book, me: nat)
    requires Inv(r, b) && Enabled(r, Decide(me)) && Passes(r.pool.cfg, r.pending[me].stage) && me in b.marks
    ensures Inv(Go(r, me, Ready), Passed(b, me))
  {
    var q := Go(r, me, Ready);
    assert q.pending.Keys == r.pending.Keys;
    assert |q.pending| == |q.pending.Keys| && |r.pending| == |r.pending.Keys|;
    PassKeepsBest(r, b, me);
    PassKeepsCandidates(r, b, me);
    assert Covered(q, Passed(b, me));
    hide Best, Candidates, Covered;
  }

  // ----- A lookup goes through -----

  /** The lookup `me` is over; at most its own slot has been opened. */
  ghost predicate GoesThrough(r: Race, q: Race, me: nat) {
    && IsReady(r, me) && q.pending == r.pending - {me} && Open(q.pool) <= Open(r.pool) + {r.pending[me].slot}
    && q.pool.cfg == r.pool.cfg && q.callers == r.callers && q.started == r.started
  }

  function Through(b: Book, r: Race, q: Race, me: nat): Book
    requires me in r.pending
  {
    Trimmed(b, Open(q.pool)).(owner := b.owner[r.pending[me].slot.c := me])
  }

  lemma ThroughKeepsMark(r: Race, q: Race, b: Book, me: nat, m: Mark, skip: set<P.Ctx>)
    requires GoesThrough(r, q, me) && Holding(r, b, m) && Paid(r, b, m, skip)
    ensures Holding(q, Through(b, r, q, me), Trim(m, Open(q.pool)))
    ensures Paid(q, Through(b, r, q, me), Trim(m, Open(q.pool)), skip)
  {
    var c := r.pending[me].slot.c;
    forall d | Awaited(r, d) && d != c ensures Awaited(q, d) {
      var id :| IsReady(r, id) && r.pending[id].slot.c == d;
      assert IsReady(q, id);
    }
    hide Open;
  }

  lemma ThroughKeepsCandidates(r: Race, q: Race, b: Book, me: nat)
    requires GoesThrough(r, q, me) && Candidates(r, b)
    ensures Candidates(q, Through(b, r, q, me))
  {
    var b' := Through(b, r, q, me);
    forall id | Scans(q, id) && id in b'.marks && b'.marks[id].at > b'.best.at
      ensures Holding(q, b', b'.marks[id]) && Paid(q, b', b'.marks[id], {q.pending[id].slot.c})
    {
      assert Scans(r, id);
      ThroughKeepsMark(r, q, b, me, b.marks[id], {r.pending[id].slot.c});
    }
    hide Holding, Paid, Open;
  }

  lemma ThroughKeepsCovered(r: Race, q: Race, b: Book, me: nat)
    requires GoesThrough(r, q, me) && Covered(r, b)
    ensures Covered(q, Through(b, r, q, me))
  {
    hide Open;
  }

  lemma ThroughKeepsIds(r: Race, q: Race, b: Book, me: nat)
    requires GoesThrough(r, q, me) && Ids(r, b)
    ensures Ids(q, Through(b, r, q, me))
  {
    hide Open, Trimmed;
  }

  lemma ThroughKeepsBest(r: Race, q: Race, b: Book, me: nat)
    requires GoesThrough(r, q, me) && Best(r, b)
    ensures Best(q, Through(b, r, q, me))
  {
    ThroughKeepsMark(r, q, b, me, b.best, {});
    P.FewerFit(Trim(b.best, Open(q.pool)).stayed, b.best.stayed);
    hide Holding, Paid, Open;
  }

  lemma ThroughKeepsInv(r: Race, q: Race, b: Book, me: nat)
    requires Inv(r, b) && GoesThrough(r, q, me)
    ensures Inv(q, Through(b, r, q, me))
  {
    hide Covered, Candidates, Open, Best, Ids, Through;
    Gone(r.pending, me);
    ThroughKeepsIds(r, q, b, me);
    ThroughKeepsBest(r, q, b, me);
    ThroughKeepsCovered(r, q, b, me);
    ThroughKeepsCandidates(r, q, b, me);
  }

  // ----- Every run -----

  /** Find, Look, callbacks, reaps and a rejection only shrink. */
  lemma OthersShrink(r: Race, b: Book, step: Step)
    requires Ids(r, b) && r.pool.cfg.policy.Reject? && r.pool.cfg.maxActive > 0 && |r.pending| <= r.callers
    requires Enabled(r, step) && !step.Snap? && !step.Read? && !step.Evict? && !step.Commit?
    requires step.Decide? ==> !Passes(r.pool.cfg, r.pending[step.me].stage)
    ensures Shrinks(r, Apply(r, step))
  {
    hide Open, Apply, ReadyAmong, NobodyPasses, After;
    StepOpens(r, step);
    StepCounts(r, step);
    OthersPassNobody(r, b, step);
  }

  lemma OthersPassNobody(r: Race, b: Book, step: Step)
    requires Ids(r, b) && r.pool.cfg.policy.Reject? && r.pool.cfg.maxActive > 0
    requires Enabled(r, step) && !step.Snap? && !step.Read? && !step.Evict? && !step.Commit?
    requires step.Decide? ==> !Passes(r.pool.cfg, r.pending[step.me].stage)
    ensures NobodyPasses(r, Apply(r, step))
  {
    hide Apply, Live, P.WithEntry, Passes;
    StepPending(r, step);
    var q := Apply(r, step);
    match step
    case Find(_, _) => assert r.started !in r.pending;
    case Look(me, _) => assert !IsReady(r, me) && !Scans(r, me);
    case Decide(me) => assert q.pending == r.pending - {me} && !IsReady(r, me);
    case _ =>
  }

  lemma SelfShrinks(r: Race, b: Book)
    requires Inv(r, b)
    ensures Inv(r, Trimmed(b, Open(r.pool)))
  {
    assert Shrinks(r, r);
    hide Inv, Shrinks;
    ShrinkKeepsInv(r, b, r);
  }

  lemma CommitGoesThrough(r: Race, step: Step)
    requires Enabled(r, step) && step.Commit?
    ensures GoesThrough(r, Apply(r, step), step.me)
  {
    StepOpens(r, step);
    StepPending(r, step);
    hide Open, P.Install;
  }

  lemma ScanKeepsInv(r: Race, b: Book, step: Step)
    requires Inv(r, b) && Enabled(r, step)
    requires step.Snap? || step.Read? || (step.Decide? && Passes(r.pool.cfg, r.pending[step.me].stage))
    ensures Inv(Apply(r, step), Note(b, r, step))
  {
    var b' := Trimmed(b, Open(r.pool));
    SelfShrinks(r, b);
    assert Apply(r, step).pool == r.pool;
    if !step.Snap? {
      assert Scans(r, step.me) && step.me in b'.marks by { assert Covered(r, b'); }
    }
    hide Inv, Trimmed, Open, Snaps, Reads, Snapped, Seen, Passed;
    match step
    case Snap(me) => SnapKeepsInv(r, b', me);
    case Read(me, s) => ReadKeepsInv(r, b', me, s);
    case Decide(me) => PassKeepsInv(r, b', me);
    case _ =>
  }

  lemma StepKeepsInv(r: Race, b: Book, step: Step)
    requires Inv(r, b)
    ensures Inv(Apply(r, step), Note(b, r, step))
  {
    if Enabled(r, step) {
      var q := Apply(r, step);
      if step.Commit? {
        CommitGoesThrough(r, step);
        ThroughKeepsInv(r, q, b, step.me);
        hide Inv, Open, Trimmed, Apply;
      } else if step.Snap? || step.Read? || (step.Decide? && Passes(r.pool.cfg, r.pending[step.me].stage)) {
        hide Inv, Open, Trimmed, Apply, Note;
        ScanKeepsInv(r, b, step);
      } else {
        assert !step.Evict? by { assert Ids(r, b); }
        OthersShrink(r, b, step);
        ShrinkKeepsInv(r, b, q);
        hide Inv, Open, Trimmed, Apply;
      }
    }
  }

  lemma {:induction false} EveryRunKeepsInv(cfg: P.Config, callers: nat, steps: seq<Step>)
    requires cfg.policy.Reject? && cfg.maxActive > 0
    ensures Inv(Run(Begin(cfg, callers), steps), Notes(Begin(cfg, callers), steps))
  {
    hide Apply, Note;
    var start := Begin(cfg, callers);
    if steps == [] {
      assert Open(start.pool) == {};
    } else {
      hide Inv;
      var prefix, last := steps[..|steps| - 1], steps[|steps| - 1];
      EveryRunKeepsInv(cfg, callers, prefix);
      StepKeepsInv(Run(start, prefix), Notes(start, prefix), last);
    }
  }

  // ----- The bound -----

  lemma {:induction false} InjectionFits<A, B>(m: map<A, B>, to: set<B>)
    requires forall x :: x in m ==> m[x] in to
    requires forall x, y :: x in m && y in m && m[x] == m[y] ==> x == y
    ensures |m.Keys| <= |to|
  {
    if m.Keys != {} {
      var x :| x in m;
      var rest := m - {x};
      assert rest.Keys == m.Keys - {x};
      InjectionFits(rest, to - {m[x]});
    }
  }

  /** The lookup that pays for a session opened since the best scan began. */
  ghost function Payer(r: Race, b: Book, s: Slot): (id: nat)
    requires Inv(r, b) && s in Open(r.pool) - b.best.stayed
    ensures id in b.best.held
    ensures if Awaited(r, s.c) then IsReady(r, id) && r.pending[id].slot.c == s.c
            else s.c in b.owner && b.owner[s.c] == id && id !in r.pending
  {
    assert Paid(r, b, b.best, {}) && Holding(r, b, b.best);
    if Awaited(r, s.c) then
      var id :| IsReady(r, id) && r.pending[id].slot.c == s.c; id
    else b.owner[s.c]
  }

  lemma PayersDiffer(r: Race, b: Book, s: Slot, t: Slot)
    requires Inv(r, b) && s in Open(r.pool) - b.best.stayed && t in Open(r.pool) - b.best.stayed
    requires Payer(r, b, s) == Payer(r, b, t)
    ensures s == t
  {
    assert Ids(r, b);
    hide Payer, Open;
    assert s.c == t.c;
  }

  /** With at most N lookups in progress, the pool has at most max_active - 1 + N
      sessions. */
  lemma OpenFits(r: Race, b: Book)
    requires Inv(r, b)
    ensures |Open(r.pool)| <= r.pool.cfg.maxActive - 1 + r.callers
  {
    var since := Open(r.pool) - b.best.stayed;
    var payers := map s | s in since :: Payer(r, b, s);
    forall s, t | s in payers && t in payers && payers[s] == payers[t] ensures s == t { PayersDiffer(r, b, s, t); }
    hide Payer, Open;
    InjectionFits(payers, b.best.held);
    assert payers.Keys == since;
    assert Open(r.pool) == b.best.stayed + since;
  }

  /** Under reject, in every interleaving of any lookups, callbacks and reaps: with at
      most N lookups in progress at a time, the open sessions exceed max_active - 1 + N
      by no more than the number of installations on slots that a reap has removed,
      however many scans overlook sessions. */
  lemma RejectIsBounded(cfg: P.Config, callers: nat, steps: seq<Step>)
    requires cfg.maxActive > 0 && cfg.policy.Reject?
    ensures LiveSessions(Run(Begin(cfg, callers), steps)) <=
              cfg.maxActive - 1 + callers + TallyOf(Begin(cfg, callers), steps).stranded
  {
    hide Run, TallyOf, Open, Strays, ReadyAmong, Begin, Notes, Inv;
    EveryRunWithin(cfg, callers, steps);
    EveryRunKeepsInv(cfg, callers, steps);
    OpenFits(Run(Begin(cfg, callers), steps), Notes(Begin(cfg, callers), steps));
  }
}
