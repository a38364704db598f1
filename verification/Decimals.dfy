/** Decimal numerals, and the first unused name in a numbered family. */
module Decimals {
  import opened Basics

  function Digit(d: nat): char
    requires d < 10
  {
    '0' + d as char
  }

  function Decimal(n: nat): (s: string)
    ensures s != []
  {
    if n < 10 then [Digit(n)] else Decimal(n / 10) + [Digit(n % 10)]
  }

  function Value(s: string): nat {
    if s == [] then 0
    else
      var c := s[|s| - 1];
      Value(s[..|s| - 1]) * 10 + (if '0' <= c <= '9' then c as int - '0' as int else 0)
  }

  /** A numeral reads back as its number, so different numbers have different numerals. */
  lemma ValueDecimal(n: nat)
    ensures Value(Decimal(n)) == n
  {
    if n < 10 {
      assert Value([Digit(n)][..0]) == 0;
    } else {
      ValueDecimal(n / 10);
      var s := Decimal(n);
      assert s[..|s| - 1] == Decimal(n / 10);
    }
  }

  lemma DecimalIsDigits(n: nat)
    ensures forall i :: 0 <= i < |Decimal(n)| ==> '0' <= Decimal(n)[i] <= '9'
  {
  }

  /** A numeral without a leading zero is the numeral of its number. */
  lemma {:induction false} DecimalValue(s: string)
    requires s != "" && s[0] != '0' && forall i :: 0 <= i < |s| ==> '0' <= s[i] <= '9'
    ensures Value(s) > 0 && Decimal(Value(s)) == s
  {
    var front, c := s[..|s| - 1], s[|s| - 1];
    assert s == front + [c];
    if front == [] {
      assert Value(front) == 0;
    } else {
      DecimalValue(front);
    }
  }

  lemma {:induction false} DecimalStarts(n: nat)
    requires n > 0
    ensures Decimal(n)[0] != '0'
  {
    if n >= 10 {
      DecimalStarts(n / 10);
    }
  }

  function Candidate(preferred: string, k: nat): string {
    preferred + ":" + Decimal(k)
  }

  lemma CandidatesDiffer(preferred: string, j: nat, k: nat)
    requires j != k
    ensures Candidate(preferred, j) != Candidate(preferred, k)
  {
    ValueDecimal(j);
    ValueDecimal(k);
    assert Decimal(j) == Candidate(preferred, j)[|preferred| + 1..];
    assert Decimal(k) == Candidate(preferred, k)[|preferred| + 1..];
  }

  ghost function LaterUsed(used: set<string>, preferred: string, k: nat): set<string> {
    set u | u in used && exists j: nat :: k <= j && u == Candidate(preferred, j)
  }

  lemma LaterUsedShrinks(used: set<string>, preferred: string, k: nat)
    requires Candidate(preferred, k) in used
    ensures |LaterUsed(used, preferred, k + 1)| < |LaterUsed(used, preferred, k)|
  {
    var now, later := LaterUsed(used, preferred, k), LaterUsed(used, preferred, k + 1);
    var name := Candidate(preferred, k);
    assert name in now;
    if name in later {
      var j: nat :| k + 1 <= j && name == Candidate(preferred, j);
      CandidatesDiffer(preferred, j, k);
    }
    assert later <= now - {name};
    SmallerSet(later, now - {name});
  }

  ghost function FirstFrom(used: set<string>, preferred: string, k: nat): (name: string)
    ensures name !in used && preferred <= name
    decreases |LaterUsed(used, preferred, k)|
  {
    if Candidate(preferred, k) !in used then Candidate(preferred, k)
    else
      LaterUsedShrinks(used, preferred, k);
      FirstFrom(used, preferred, k + 1)
  }

  /** The preferred name if it is free, otherwise the first free one of `preferred:2`, `preferred:3`, ... */
  ghost function NextAvailable(used: set<string>, preferred: string): (name: string)
    ensures name !in used && preferred <= name
  {
    if preferred !in used then preferred else FirstFrom(used, preferred, 2)
  }

  method FindAvailable(used: set<string>, preferred: string) returns (name: string)
    ensures name == NextAvailable(used, preferred)
  {
    if preferred !in used {
      return preferred;
    }
    var sequence := 2;
    while preferred + ":" + Decimal(sequence) in used
      invariant FirstFrom(used, preferred, 2) == FirstFrom(used, preferred, sequence)
      decreases |LaterUsed(used, preferred, sequence)|
    {
      assert Candidate(preferred, sequence) in used;
      LaterUsedShrinks(used, preferred, sequence);
      sequence := sequence + 1;
    }
    assert Candidate(preferred, sequence) !in used;
    name := preferred + ":" + Decimal(sequence);
  }

  /** The search skips no free name: every smaller number is taken. */
  lemma {:induction false} SearchIsLeast(used: set<string>, preferred: string, k: nat) returns (n: nat)
    ensures k <= n && FirstFrom(used, preferred, k) == Candidate(preferred, n)
    ensures forall j :: k <= j < n ==> Candidate(preferred, j) in used
    decreases |LaterUsed(used, preferred, k)|
  {
    if Candidate(preferred, k) !in used {
      n := k;
    } else {
      LaterUsedShrinks(used, preferred, k);
      n := SearchIsLeast(used, preferred, k + 1);
    }
  }
}
