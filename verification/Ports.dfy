/** Dynamic ports: a cursor that walks round the configured range, and the scan
    that takes the first candidate the scheduler and the machine both allow. */
module Ports {
  import opened Options

  datatype RangeError = StartNotPositive | EndTooLarge | EmptyRange

  datatype Range = Range(start: int, end: int) {
    function Validate(): Option<RangeError> {
      if start <= 0 then Some(StartNotPositive)
      else if end > 65535 then Some(EndTooLarge)
      else if start > end then Some(EmptyRange)
      else None
    }

    predicate Valid() {
      Validate().None?
    }

    predicate Has(p: int) {
      start <= p <= end
    }

    function Size(): int {
      end - start + 1
    }

    /** The port the cursor stands for; a cursor outside the range starts over. */
    function Candidate(cursor: int): int {
      if cursor < start || cursor > end then start else cursor
    }

    function Next(cursor: int): int {
      if Candidate(cursor) == end then start else Candidate(cursor) + 1
    }
  }

  /** What the machine says about a port: nobody listens, a stale agent of this
      name that was evicted, a foreign process, or the inspection failed. */
  datatype Probe = Free | Stale | Foreign | Broken

  datatype Outcome = Allocated(port: int) | NoPorts | Failed(at: int)

  datatype Scan = Scan(outcome: Outcome, cursor: int)

  predicate Usable(p: int, reserved: set<int>, probe: int -> Probe) {
    p !in reserved && !probe(p).Foreign?
  }

  function ScanFrom(r: Range, cursor: int, reserved: set<int>, probe: int -> Probe, n: nat): Scan
    decreases n
  {
    if n == 0 then Scan(NoPorts, cursor)
    else
      var p, next := r.Candidate(cursor), r.Next(cursor);
      if !Usable(p, reserved, probe) then ScanFrom(r, next, reserved, probe, n - 1)
      else Scan(if probe(p).Broken? then Failed(p) else Allocated(p), next)
  }

  /** One dynamic allocation: at most one pass over the range. */
  function ScanRange(r: Range, cursor: int, reserved: set<int>, probe: int -> Probe): Scan {
    if !r.Valid() then Scan(NoPorts, cursor) else ScanFrom(r, cursor, reserved, probe, r.Size())
  }

  class PortCursor {
    const range: Range
    var nextPort: int

    constructor (range: Range)
      ensures this.range == range && nextPort == range.start
    {
      this.range := range;
      nextPort := range.start;
    }

    method AllocatePort() returns (port: int, err: Option<RangeError>)
      modifies this
      ensures err == range.Validate()
      ensures err.Some? ==> nextPort == old(nextPort)
      ensures err.None? ==>
              range.Has(port) && port == range.Candidate(old(nextPort)) && nextPort == range.Next(old(nextPort))
    {
      err := range.Validate();
      if err.Some? { return 0, err; }
      if nextPort < range.start || nextPort > range.end {
        nextPort := range.start;
      }
      port := nextPort;
      if nextPort == range.end {
        nextPort := range.start;
      } else {
        nextPort := nextPort + 1;
      }
    }

    /** The allocation loop of an agent start without a pinned port. */
    method Find(reserved: set<int>, probe: int -> Probe) returns (outcome: Outcome)
      modifies this
      ensures Scan(outcome, nextPort) == ScanRange(range, old(nextPort), reserved, probe)
    {
      var count := range.Size();
      if count <= 0 { return NoPorts; }
      var i := 0;
      while i < count
        invariant 0 <= i <= count
        invariant i > 0 ==> range.Valid()
        invariant i == 0 ==> nextPort == old(nextPort)
        invariant range.Valid() ==>
                  ScanRange(range, old(nextPort), reserved, probe) ==
                    ScanFrom(range, nextPort, reserved, probe, count - i)
      {
        var port, err := AllocatePort();
        if err.Some? { return NoPorts; }
        i := i + 1;
        if port in reserved { continue; }
        match probe(port) {
          case Foreign => continue;
          case Broken => return Failed(port);
          case _ => return Allocated(port);
        }
      }
      return NoPorts;
    }
  }

  // ----- One pass visits every port once -----

  function Nth(r: Range, cursor: int, k: nat): int
    decreases k
  {
    if k == 0 then r.Candidate(cursor) else Nth(r, r.Next(cursor), k - 1)
  }

  lemma {:induction false} NthIsCyclic(r: Range, cursor: int, k: nat)
    requires r.Valid() && k < r.Size()
    ensures var c := r.Candidate(cursor); Nth(r, cursor, k) == if c + k <= r.end then c + k else c + k - r.Size()
    decreases k
  {
    if k > 0 { NthIsCyclic(r, r.Next(cursor), k - 1); }
  }

  /** From any cursor, the candidates of one pass are the ports of the range, each
      exactly once. */
  lemma OnePassVisitsEachPortOnce(r: Range, cursor: int, p: int) returns (k: nat)
    requires r.Valid() && r.Has(p)
    ensures k < r.Size() && Nth(r, cursor, k) == p
    ensures forall j: nat :: j < r.Size() && Nth(r, cursor, j) == p ==> j == k
    ensures forall j: nat :: j < r.Size() ==> r.Has(Nth(r, cursor, j))
  {
    var c := r.Candidate(cursor);
    k := if p >= c then p - c else p - c + r.Size();
    NthIsCyclic(r, cursor, k);
    forall j: nat | j < r.Size()
      ensures r.Has(Nth(r, cursor, j)) && (Nth(r, cursor, j) == p ==> j == k)
    {
      NthIsCyclic(r, cursor, j);
    }
  }

  /** The scan stops at the first usable candidate, the k-th, having passed over
      unusable ones only, and leaves the cursor behind it. */
  lemma {:induction false} ScanStopsAtFirstUsable(
      r: Range, cursor: int, reserved: set<int>, probe: int -> Probe, n: nat) returns (k: nat)
    requires r.Valid()
    ensures k <= n && forall j: nat :: j < k ==> !Usable(Nth(r, cursor, j), reserved, probe)
    ensures k == n ==> ScanFrom(r, cursor, reserved, probe, n).outcome == NoPorts
    ensures k < n ==>
              var hit := Nth(r, cursor, k);
              && Usable(hit, reserved, probe)
              && ScanFrom(r, cursor, reserved, probe, n) ==
                Scan(if probe(hit).Broken? then Failed(hit) else Allocated(hit), r.Next(hit))
    decreases n
  {
    if n == 0 || Usable(r.Candidate(cursor), reserved, probe) {
      k := 0;
    } else {
      var next := r.Next(cursor);
      var k' := ScanStopsAtFirstUsable(r, next, reserved, probe, n - 1);
      k := k' + 1;
      forall j: nat | j < k ensures !Usable(Nth(r, cursor, j), reserved, probe) {
        if j > 0 { assert Nth(r, cursor, j) == Nth(r, next, j - 1); }
      }
      assert Nth(r, cursor, k) == Nth(r, next, k');
    }
  }

  /** An allocation finds a port exactly when the range has one that the scheduler
      has not reserved and no foreign process holds; a failed inspection can only
      stop it at such a port. */
  lemma ScanSucceedsIff(r: Range, cursor: int, reserved: set<int>, probe: int -> Probe)
    requires r.Valid()
    ensures var o := ScanRange(r, cursor, reserved, probe).outcome;
            && (o.NoPorts? <==> forall p :: r.Has(p) ==> !Usable(p, reserved, probe))
            && (o.Allocated? ==> r.Has(o.port) && Usable(o.port, reserved, probe) && !probe(o.port).Broken?)
            && (o.Failed? ==> r.Has(o.at) && Usable(o.at, reserved, probe) && probe(o.at).Broken?)
  {
    var k := ScanStopsAtFirstUsable(r, cursor, reserved, probe, r.Size());
    if k < r.Size() {
      NthIsCyclic(r, cursor, k);
    } else {
      forall p | r.Has(p) ensures !Usable(p, reserved, probe) {
        var j := OnePassVisitsEachPortOnce(r, cursor, p);
      }
    }
  }

  // ----- Restart backoff -----

  function Doubled(initial: int, times: nat): int {
    if times == 0 then initial else 2 * Doubled(initial, times - 1)
  }

  function Min(a: int, b: int): int {
    if a < b then a else b
  }

  lemma {:induction false} DoubledGrows(initial: int, m: nat, n: nat)
    requires initial > 0 && m <= n
    ensures Doubled(initial, m) <= Doubled(initial, n) && Doubled(initial, n) > 0
  {
    if n > 0 {
      if m < n { DoubledGrows(initial, m, n - 1); } else { DoubledGrows(initial, m - 1, n - 1); }
    }
  }

  /** The delay doubles from the initial one with every attempt, up to the
      maximum; a non-positive setting means the default. Times in milliseconds. */
  method RestartBackoff(initialBackoff: int, maxBackoff: int, attempt: int) returns (delay: int)
    ensures var initial := if initialBackoff <= 0 then 1000 else initialBackoff;
            var max := if maxBackoff <= 0 then 30_000 else maxBackoff;
            delay == Min(Doubled(initial, if attempt < 1 then 0 else attempt - 1), max)
  {
    var initial := if initialBackoff <= 0 then 1000 else initialBackoff;
    var max := if maxBackoff <= 0 then 30_000 else maxBackoff;
    delay := initial;
    var i := 1;
    while i < attempt
      invariant 1 <= i && (i <= attempt || i == 1)
      invariant delay == Doubled(initial, i - 1)
      invariant i > 1 ==> delay < max
    {
      delay := delay * 2;
      if delay >= max {
        DoubledGrows(initial, i, attempt - 1);
        return max;
      }
      i := i + 1;
    }
    if delay > max {
      return max;
    }
  }
}
