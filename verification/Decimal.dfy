/** Decimal numerals, as strconv prints and parses them. */
module Decimal {
  import opened Options

  predicate IsDigit(c: char) {
    '0' <= c <= '9'
  }

  function Print(n: nat): (s: string)
    ensures s != [] && forall c :: c in s ==> IsDigit(c)
  {
    if n < 10 then ['0' + n as char] else Print(n / 10) + ['0' + (n % 10) as char]
  }

  /** An unsigned numeral: one or more digits, leading zeros allowed, no sign. */
  function Parse(s: string): Option<nat> {
    if s == [] || !IsDigit(s[|s| - 1]) then None
    else
      var d := (s[|s| - 1] - '0') as nat;
      if |s| == 1 then Some(d)
      else
        match Parse(s[..|s| - 1])
        case None => None
        case Some(n) => Some(10 * n + d)
  }

  lemma {:induction false} ParsePrint(n: nat)
    ensures Parse(Print(n)) == Some(n)
  {
    if n >= 10 {
      ParsePrint(n / 10);
      var s := Print(n);
      assert s[..|s| - 1] == Print(n / 10);
    }
  }

  /** A numeral: digits only, and at least one. */
  predicate IsNumeral(s: string) {
    s != [] && forall c :: c in s ==> IsDigit(c)
  }

  lemma {:induction false} ParsesIff(s: string)
    ensures Parse(s).Some? <==> IsNumeral(s)
  {
    if |s| > 1 {
      ParsesIff(s[..|s| - 1]);
      assert s == s[..|s| - 1] + [s[|s| - 1]];
    }
  }

  lemma {:induction false} PositiveUnlessZero(s: string)
    requires IsNumeral(s) && s[0] != '0'
    ensures Parse(s).Some? && Parse(s).value > 0
  {
    ParsesIff(s);
    if |s| > 1 {
      var front := s[..|s| - 1];
      assert forall c :: c in front ==> c in s;
      PositiveUnlessZero(front);
    }
  }

  lemma {:induction false} PrintStartsPlain(n: nat)
    ensures n > 0 ==> Print(n)[0] != '0'
    ensures n == 0 ==> Print(n) == "0"
  {
    if n >= 10 { PrintStartsPlain(n / 10); }
  }

  lemma PrintStep(n: nat, d: nat)
    requires n > 0 && d < 10
    ensures Print(10 * n + d) == Print(n) + ['0' + d as char]
  {
    assert (10 * n + d) / 10 == n && (10 * n + d) % 10 == d;
  }

  lemma {:induction false} PrintPlain(s: string)
    requires IsNumeral(s) && s[0] != '0'
    ensures Parse(s).Some? && Print(Parse(s).value) == s
  {
    ParsesIff(s);
    if |s| > 1 {
      var front, d := s[..|s| - 1], (s[|s| - 1] - '0') as nat;
      assert forall c :: c in front ==> c in s;
      PositiveUnlessZero(front);
      PrintPlain(front);
      assert IsDigit(s[|s| - 1]);
      PrintStep(Parse(front).value, d);
      assert s == front + [s[|s| - 1]];
    }
  }

  /** Printing a parsed numeral gives it back exactly when it has no leading zero. */
  lemma PrintParse(s: string)
    requires IsNumeral(s)
    ensures Parse(s).Some? && (Print(Parse(s).value) == s <==> |s| == 1 || s[0] != '0')
  {
    ParsesIff(s);
    if s[0] != '0' {
      PrintPlain(s);
    } else {
      PrintStartsPlain(Parse(s).value);
    }
  }

  lemma PrintIsInjective(m: nat, n: nat)
    ensures Print(m) == Print(n) <==> m == n
  {
    ParsePrint(m);
    ParsePrint(n);
  }
}
