/** Spreading the concurrent sessions of one agent card over up to `cap` runtime
    instances, and the names those instances run under. */
module Instances {
  import D = Decimal
  import opened Options

  // ----- Instance names -----

  const SEP := '#'
  const MAX_INT64: nat := 0x7FFF_FFFF_FFFF_FFFF

  function InstanceName(base: string, idx: int): string {
    if idx <= 0 then base else base + [SEP] + D.Print(idx)
  }

  /** strconv.Atoi: an optional sign, then digits, within the range of int. */
  function Atoi(s: string): Option<int> {
    var signed := s != [] && (s[0] == '+' || s[0] == '-');
    match D.Parse(if signed then s[1..] else s)
    case None => None
    case Some(n) =>
      if signed && s[0] == '-' then (if n <= MAX_INT64 + 1 then Some(0 - n as int) else None)
      else if n <= MAX_INT64 then Some(n) else None
  }

  /** The position of the last separator, or -1. */
  function LastSep(s: string): (i: int)
    ensures -1 <= i < |s|
    ensures i >= 0 ==> s[i] == SEP
    ensures forall j :: i < j < |s| ==> s[j] != SEP
  {
    if s == [] then -1
    else if s[|s| - 1] == SEP then |s| - 1
    else LastSep(s[..|s| - 1])
  }

  datatype Parsed = Parsed(base: string, idx: int, ok: bool)

  function ParseInstanceName(name: string): Parsed {
    var i := LastSep(name);
    if i < 0 then Parsed(name, 0, true)
    else
      match Atoi(name[i + 1..])
      case Some(n) => if n <= 0 || i == 0 then Parsed(name, 0, false) else Parsed(name[..i], n, true)
      case None => Parsed(name, 0, false)
  }

  /** Parsing undoes naming for every non-empty base, even one that contains the
      separator itself; so no two instances share a name. */
  lemma ParseUndoesNaming(base: string, idx: nat)
    requires base != "" && 0 < idx <= MAX_INT64
    ensures ParseInstanceName(InstanceName(base, idx)) == Parsed(base, idx, true)
  {
    var name, digits := InstanceName(base, idx), D.Print(idx);
    D.ParsePrint(idx);
    assert D.IsDigit(digits[0]) && !D.IsDigit('+') && !D.IsDigit('-') && !D.IsDigit(SEP);
    assert Atoi(digits) == Some(idx);
    var i := LastSep(name);
    assert name[|base|] == SEP;
    assert forall j :: |base| < j < |name| ==> name[j] in digits && name[j] != SEP;
    assert i == |base|;
    assert name[i + 1..] == digits && name[..i] == base;
  }

  /** A base name without separator is never the name of an instance, so it can
      only be started under its own card. */
  lemma PlainNamesAreNotInstances(name: string, base: string, idx: int)
    requires SEP !in name
    ensures ParseInstanceName(name) == Parsed(name, 0, true)
    ensures idx > 0 ==> InstanceName(base, idx) != name
  {
    if idx > 0 {
      assert InstanceName(base, idx)[|base|] == SEP;
    }
  }

  /** What Atoi takes for a positive number: digits that may follow a plus sign. */
  lemma PositiveText(s: string)
    requires Atoi(s).Some? && Atoi(s).value > 0
    ensures s != []
    ensures var digits := if s[0] == '+' then s[1..] else s;
            D.IsNumeral(digits) && D.Parse(digits) == Some(Atoi(s).value)
  {
    var signed := s != [] && (s[0] == '+' || s[0] == '-');
    D.ParsesIff(if signed then s[1..] else s);
    hide D.Parse;
  }

  /** The other direction fails: Atoi also takes a sign and leading zeros. Of all
      names, the ones that parsing and naming do not give back are exactly those
      that parse as an instance although a sign or a zero follows the separator. */
  lemma NamingUndoesParsing(name: string)
    ensures var p := ParseInstanceName(name);
            InstanceName(p.base, p.idx) == name <==>
            (p.idx > 0 ==> LastSep(name) < |name| - 1 && '1' <= name[LastSep(name) + 1] <= '9')
  {
    hide D.Parse, D.Print, LastSep, Atoi, InstanceName, ParseInstanceName;
    var p := ParseInstanceName(name);
    if p.idx > 0 {
      var suffix := ParsedText(name);
      PositiveText(suffix);
      NamedText(p.base, suffix, p.idx);
      SuffixIsPlainIff(suffix, p.idx);
    } else {
      PlainText(name);
    }
  }

  lemma ParsedText(name: string) returns (suffix: string)
    requires ParseInstanceName(name).idx > 0
    ensures LastSep(name) >= 0 && suffix == name[LastSep(name) + 1..]
    ensures var p := ParseInstanceName(name); name == p.base + [SEP] + suffix && Atoi(suffix) == Some(p.idx)
  {
    suffix := name[LastSep(name) + 1..];
    hide Atoi;
  }

  lemma PlainText(name: string)
    requires ParseInstanceName(name).idx <= 0
    ensures var p := ParseInstanceName(name); InstanceName(p.base, p.idx) == name
  {
    hide Atoi;
  }

  lemma NamedText(base: string, suffix: string, idx: nat)
    requires idx > 0
    ensures InstanceName(base, idx) == base + [SEP] + suffix <==> D.Print(idx) == suffix
  {
    hide D.Print;
    assert InstanceName(base, idx)[|base| + 1..] == D.Print(idx);
    assert (base + [SEP] + suffix)[|base| + 1..] == suffix;
  }

  lemma SuffixIsPlainIff(suffix: string, idx: nat)
    requires idx > 0 && suffix != []
    requires var digits := if suffix[0] == '+' then suffix[1..] else suffix;
             D.IsNumeral(digits) && D.Parse(digits) == Some(idx)
    ensures D.Print(idx) == suffix <==> '1' <= suffix[0] <= '9'
  {
    hide D.Parse, D.Print;
    if suffix[0] == '+' {
      assert D.Print(idx)[0] in D.Print(idx);
    } else {
      assert suffix[0] in suffix;
      D.PrintParse(suffix);
      D.PrintStartsPlain(idx);
    }
  }

  /** Text that stands for a positive int: a numeral, after a plus sign or not. */
  predicate IsPositive(s: string) {
    var digits := if s != [] && s[0] == '+' then s[1..] else s;
    D.IsNumeral(digits) && D.Parse(digits).Some? && 0 < D.Parse(digits).value <= MAX_INT64
  }

  lemma PositiveIff(s: string)
    ensures IsPositive(s) <==> Atoi(s).Some? && Atoi(s).value > 0
    ensures IsPositive(s) ==> Atoi(s) == D.Parse(if s != [] && s[0] == '+' then s[1..] else s)
  {
    D.ParsesIff(s);
    if s != [] {
      D.ParsesIff(s[1..]);
      assert s[0] in s;
    }
    hide D.Parse;
  }

  /** The name has something before its last separator and a positive number behind. */
  predicate Pooled(name: string) {
    LastSep(name) > 0 && IsPositive(name[LastSep(name) + 1..])
  }

  lemma PooledIff(name: string)
    requires LastSep(name) >= 0
    ensures var suffix := name[LastSep(name) + 1..];
            Pooled(name) <==> LastSep(name) != 0 && Atoi(suffix).Some? && Atoi(suffix).value > 0
  {
    hide Atoi, IsPositive, LastSep;
    PositiveIff(name[LastSep(name) + 1..]);
  }

  lemma HasSep(name: string)
    ensures LastSep(name) >= 0 <==> SEP in name
  {
    if LastSep(name) >= 0 { assert name[LastSep(name)] in name; }
    hide LastSep;
  }

  /** Every name is taken apart at its last separator, and is an instance's exactly when
      something stands before it and a positive number behind it. A name with a
      separator that is not an instance's is malformed and stands for itself. */
  lemma NamesAreTakenApart(name: string)
    ensures var p := ParseInstanceName(name);
            if Pooled(name)
            then p.ok && p.base == name[..LastSep(name)] && p.idx > 0 && Atoi(name[LastSep(name) + 1..]) == Some(p.idx)
            else p.base == name && p.idx == 0 && (p.ok <==> SEP !in name)
  {
    hide Atoi, LastSep, Pooled;
    HasSep(name);
    if LastSep(name) >= 0 {
      PooledIff(name);
    } else {
      assert !Pooled(name) by { PlainIsNotPooled(name); }
    }
  }

  lemma PlainIsNotPooled(name: string)
    requires LastSep(name) < 0
    ensures !Pooled(name)
  {
  }

  lemma SignedNameParses()
    ensures ParseInstanceName("card#+2") == Parsed("card", 2, true) && InstanceName("card", 2) != "card#+2"
  {
    var name := "card#+2";
    assert LastSep(name) == 4 by { assert name[4] == SEP && name[5] != SEP && name[6] != SEP; }
    assert name[5..] == "+2" && name[5..][1..] == "2" && name[..4] == "card";
    assert D.Parse("2") == Some(2);
  }

  // ----- The pool -----

  /** Loads are kept in a map; an ordinal that is absent has load zero. */
  datatype Pool = Pool(cap: nat, spawned: nat, assign: map<string, nat>, active: map<nat, nat>) {
    function Load(i: nat): nat {
      if i in active then active[i] else 0
    }

    /** The lowest ordinal among those of least load below n. */
    function LeastLoaded(n: nat): (i: nat)
      requires n > 0
      ensures i < n
      ensures forall j :: 0 <= j < n ==> Load(i) <= Load(j)
      ensures forall j :: 0 <= j < i ==> Load(i) < Load(j)
    {
      if n == 1 then 0
      else
        var i := LeastLoaded(n - 1);
        if Load(n - 1) < Load(i) then n - 1 else i
    }

    predicate Grows()
      requires spawned > 0
    {
      Load(LeastLoaded(spawned)) > 0 && spawned < cap
    }

    function Pick(): nat
      requires spawned > 0
    {
      if Grows() then spawned else LeastLoaded(spawned)
    }

    function Ordinal(ctx: string): nat
      requires spawned > 0
    {
      if ctx != "" && ctx in assign then assign[ctx] else Pick()
    }

    function Acquire(ctx: string): Pool
      requires spawned > 0
    {
      var idx := Ordinal(ctx);
      var p := this.(active := active[idx := Load(idx) + 1]);
      if ctx != "" && ctx in assign then p
      else p.(spawned := if Grows() then spawned + 1 else spawned,
              assign := if ctx != "" then assign[ctx := idx] else assign)
    }

    function Release(idx: nat): Pool {
      if Load(idx) > 0 then this.(active := active[idx := Load(idx) - 1]) else this
    }
  }

  function NewPool(capacity: int): Pool {
    Pool(if capacity < 1 then 1 else capacity, 1, map[], map[])
  }

  class InstancePool {
    const cap: nat
    var spawned: nat
    var assign: map<string, nat>
    var active: map<nat, nat>

    ghost function View(): Pool
      reads this
    {
      Pool(cap, spawned, assign, active)
    }

    constructor (capacity: int)
      ensures View() == NewPool(capacity)
    {
      cap := if capacity < 1 then 1 else capacity;
      spawned, assign, active := 1, map[], map[];
    }

    method LoadOf(i: nat) returns (n: nat)
      ensures n == View().Load(i)
    {
      n := if i in active then active[i] else 0;
    }

    method PickLocked() returns (idx: nat)
      requires spawned > 0
      modifies this`spawned
      ensures idx == old(View()).Pick()
      ensures spawned == old(spawned) + if old(View()).Grows() then 1 else 0
    {
      var minIdx := 0;
      var minLoad := LoadOf(0);
      var i := 1;
      while i < spawned
        invariant 1 <= i <= spawned && View() == old(View())
        invariant minIdx == View().LeastLoaded(i) && minLoad == View().Load(minIdx)
      {
        var load := LoadOf(i);
        if load < minLoad {
          minIdx, minLoad := i, load;
        }
        i := i + 1;
      }
      if minLoad > 0 && spawned < cap {
        idx := spawned;
        spawned := spawned + 1;
        return;
      }
      return minIdx;
    }

    method Acquire(ctx: string) returns (idx: nat)
      requires spawned > 0
      modifies this
      ensures idx == old(View()).Ordinal(ctx) && View() == old(View()).Acquire(ctx)
    {
      if ctx != "" && ctx in assign {
        idx := assign[ctx];
        active := active[idx := (if idx in active then active[idx] else 0) + 1];
        return;
      }
      idx := PickLocked();
      if ctx != "" {
        assign := assign[ctx := idx];
      }
      active := active[idx := (if idx in active then active[idx] else 0) + 1];
    }

    method Release(idx: nat)
      modifies this
      ensures View() == old(View()).Release(idx)
    {
      if idx in active && active[idx] > 0 {
        active := active[idx := active[idx] - 1];
      }
    }
  }

  // ----- Histories -----

  /** A pool with the turns it is serving, each remembering the ordinal its
      release closure captured. */
  datatype Service = Service(pool: Pool, turns: map<nat, nat>)

  datatype Step = Begin(turn: nat, ctx: string) | End(turn: nat)

  function Apply(s: Service, step: Step): Service
    requires s.pool.spawned > 0
  {
    match step
    case Begin(t, ctx) =>
      if t in s.turns then s else Service(s.pool.Acquire(ctx), s.turns[t := s.pool.Ordinal(ctx)])
    case End(t) =>
      if t !in s.turns then s else Service(s.pool.Release(s.turns[t]), s.turns - {t})
  }

  function Run(s: Service, steps: seq<Step>): (r: Service)
    requires s.pool.spawned > 0
    ensures r.pool.spawned > 0
  {
    if steps == [] then s else Apply(Run(s, steps[..|steps| - 1]), steps[|steps| - 1])
  }

  function On(turns: map<nat, nat>, i: nat): set<nat> {
    set t | t in turns && turns[t] == i
  }

  ghost predicate Inv(s: Service) {
    && 1 <= s.pool.spawned <= s.pool.cap
    && (forall ctx :: ctx in s.pool.assign ==> s.pool.assign[ctx] < s.pool.spawned)
    && (forall t :: t in s.turns ==> s.turns[t] < s.pool.spawned)
    && (forall i: nat :: s.pool.Load(i) == |On(s.turns, i)|)
  }

  lemma OnAdded(turns: map<nat, nat>, t: nat, i: nat, j: nat)
    requires t !in turns
    ensures |On(turns[t := i], j)| == |On(turns, j)| + if i == j then 1 else 0
  {
    assert On(turns[t := i], j) == On(turns, j) + if i == j then {t} else {};
  }

  lemma OnRemoved(turns: map<nat, nat>, t: nat, j: nat)
    requires t in turns
    ensures |On(turns - {t}, j)| == |On(turns, j)| - if turns[t] == j then 1 else 0
  {
    assert On(turns, j) == On(turns - {t}, j) + if turns[t] == j then {t} else {};
  }

  lemma StepKeepsInv(s: Service, step: Step)
    requires Inv(s)
    ensures Inv(Apply(s, step))
  {
    var s' := Apply(s, step);
    match step
    case Begin(t, ctx) =>
      if t !in s.turns {
        forall j: nat ensures s'.pool.Load(j) == |On(s'.turns, j)| { OnAdded(s.turns, t, s.pool.Ordinal(ctx), j); }
      }
    case End(t) =>
      if t in s.turns {
        assert t in On(s.turns, s.turns[t]);
        forall j: nat ensures s'.pool.Load(j) == |On(s'.turns, j)| { OnRemoved(s.turns, t, j); }
      }
  }

  /** Whatever sessions come and go: ordinals stay below spawned, spawned stays
      below the cap, and a load is the number of turns running there. */
  lemma {:induction false} EveryRunKeepsInv(capacity: int, steps: seq<Step>)
    ensures Inv(Run(Service(NewPool(capacity), map[]), steps))
  {
    if steps != [] {
      EveryRunKeepsInv(capacity, steps[..|steps| - 1]);
      StepKeepsInv(Run(Service(NewPool(capacity), map[]), steps[..|steps| - 1]), steps[|steps| - 1]);
    } else {
      forall i: nat ensures On(map[], i) == {} {}
    }
  }

  /** A session keeps its instance for the life of the pool. */
  lemma {:induction false} AffinityIsForever(s: Service, steps: seq<Step>, ctx: string)
    requires s.pool.spawned > 0 && ctx in s.pool.assign && ctx != ""
    ensures var p := Run(s, steps).pool;
            ctx in p.assign && p.assign[ctx] == s.pool.assign[ctx] && p.Ordinal(ctx) == s.pool.assign[ctx]
  {
    if steps != [] {
      AffinityIsForever(s, steps[..|steps| - 1], ctx);
    }
  }

  /** So the first turn of a session settles where all its later turns are served,
      whatever comes in between. */
  lemma SessionStaysWhereItBegan(s: Service, t: nat, ctx: string, steps: seq<Step>, later: nat)
    requires s.pool.spawned > 0 && ctx != "" && t !in s.turns
    requires later !in Run(Apply(s, Begin(t, ctx)), steps).turns
    ensures var begun := Apply(s, Begin(t, ctx));
            var again := Apply(Run(begun, steps), Begin(later, ctx));
            t in begun.turns && later in again.turns && again.turns[later] == begun.turns[t]
  {
    AffinityIsForever(Apply(s, Begin(t, ctx)), steps, ctx);
    hide Run;
  }

  /** A session without an instance is put on a busy one only when all cap
      instances are busy, and then on a least busy one; otherwise on an idle
      instance, or on a new one when none is idle. */
  lemma NewSessionsAvoidBusyInstances(s: Service, ctx: string)
    requires Inv(s) && (ctx == "" || ctx !in s.pool.assign)
    ensures var p := s.pool; var idx := p.Ordinal(ctx);
            && (p.Load(idx) > 0 ==> p.spawned == p.cap && forall i :: 0 <= i < p.cap ==> p.Load(i) >= p.Load(idx))
            && (idx == p.spawned ==> forall i :: 0 <= i < p.spawned ==> p.Load(i) > 0)
  {
    assert On(s.turns, s.pool.spawned) == {};
  }

  // ----- k sessions at once -----

  function Begins(ctxs: seq<string>): seq<Step> {
    seq(|ctxs|, i requires 0 <= i < |ctxs| => Begin(i, ctxs[i]))
  }

  ghost predicate Fresh(ctxs: seq<string>) {
    forall i, j :: 0 <= i < j < |ctxs| ==> ctxs[i] == "" || ctxs[i] != ctxs[j]
  }

  ghost predicate Spread(p: Pool, k: nat) {
    && p.spawned == (if k < 1 then 1 else if k < p.cap then k else p.cap)
    && (k <= p.cap ==> forall i :: 0 <= i < p.spawned ==> p.Load(i) == (if k == 0 then 0 else 1))
    && (forall i, j :: 0 <= i < p.spawned && 0 <= j < p.spawned ==> p.Load(i) <= p.Load(j) + 1)
  }

  /** The sessions of ctxs have begun on a pool of this capacity, and none has ended. */
  ghost predicate Begun(s: Service, capacity: int, ctxs: seq<string>) {
    && Inv(s) && Spread(s.pool, |ctxs|) && s.pool.cap == NewPool(capacity).cap
    && (forall t: nat :: t in s.turns <==> t < |ctxs|)
    && (forall ctx :: ctx in s.pool.assign <==> ctx != "" && ctx in ctxs)
  }

  lemma BegunGrows(s: Service, capacity: int, ctxs: seq<string>, ctx: string)
    requires Begun(s, capacity, ctxs) && (ctx == "" || ctx !in ctxs)
    ensures Begun(Apply(s, Begin(|ctxs|, ctx)), capacity, ctxs + [ctx])
  {
    StepKeepsInv(s, Begin(|ctxs|, ctx));
    SpreadGrows(s, |ctxs|, ctx);
    hide Inv, Spread;
  }

  /** k sessions that start and do not end use max(1, min(k, cap)) instances, and
      no two of these differ in load by more than one. */
  lemma {:induction false} FreshSessionsAreBalanced(capacity: int, ctxs: seq<string>)
    requires Fresh(ctxs)
    ensures Begun(Run(Service(NewPool(capacity), map[]), Begins(ctxs)), capacity, ctxs)
  {
    if ctxs == [] {
      var s := Service(NewPool(capacity), map[]);
      assert Begins(ctxs) == [] && Run(s, []) == s;
      EveryRunKeepsInv(capacity, []);
      assert Spread(s.pool, 0);
    } else {
      hide Begun, Apply;
      var prefix, last := ctxs[..|ctxs| - 1], ctxs[|ctxs| - 1];
      assert Begins(ctxs)[..|ctxs| - 1] == Begins(prefix);
      FreshSessionsAreBalanced(capacity, prefix);
      assert ctxs == prefix + [last] && (last == "" || last !in prefix);
      BegunGrows(Run(Service(NewPool(capacity), map[]), Begins(prefix)), capacity, prefix, last);
    }
  }

  lemma SpreadGrows(s: Service, k: nat, ctx: string)
    requires Inv(s) && Spread(s.pool, k) && (ctx == "" || ctx !in s.pool.assign)
    ensures Spread(s.pool.Acquire(ctx), k + 1)
  {
    var p, p' := s.pool, s.pool.Acquire(ctx);
    var idx := p.Pick();
    assert On(s.turns, p.spawned) == {};
    assert forall i: nat :: p'.Load(i) == p.Load(i) + if i == idx then 1 else 0;
  }
}
