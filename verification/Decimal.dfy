/** Decimal printing and reading, as String(n) and Number.parseInt(s, 10) do for integers. */
module Decimal {
  predicate IsDigit(c: char) {
    '0' <= c <= '9'
  }

  predicate IsDigits(s: string) {
    forall i :: 0 <= i < |s| ==> IsDigit(s[i])
  }

  /** No leading zero: the way a number prints. */
  predicate IsCanonical(s: string) {
    s != [] && IsDigits(s) && (|s| == 1 || s[0] != '0')
  }

  function DigitChar(d: nat): (c: char)
    requires d < 10
    ensures IsDigit(c) && DigitValue(c) == d
  {
    ['0', '1', '2', '3', '4', '5', '6', '7', '8', '9'][d]
  }

  function DigitValue(c: char): nat
    requires IsDigit(c)
  {
    (c - '0') as nat
  }

  function Print(n: nat): (s: string)
    ensures s != [] && IsDigits(s)
    ensures s[0] == '0' ==> n == 0 && |s| == 1
  {
    if n < 10 then [DigitChar(n)] else Print(n / 10) + [DigitChar(n % 10)]
  }

  function Read(s: string): nat
    requires IsDigits(s)
  {
    if s == [] then 0 else Read(s[..|s| - 1]) * 10 + DigitValue(s[|s| - 1])
  }

  lemma {:induction false} ReadPrint(n: nat)
    ensures Read(Print(n)) == n
  {
    if n >= 10 {
      ReadPrint(n / 10);
      var s := Print(n);
      assert s[..|s| - 1] == Print(n / 10);
    } else {
      var s := Print(n);
      assert s[..|s| - 1] == [];
    }
  }

  lemma {:induction false} PrintRead(s: string)
    requires IsCanonical(s)
    ensures Print(Read(s)) == s
    ensures |s| > 1 ==> Read(s) >= 10
  {
    var last, front := s[|s| - 1], s[..|s| - 1];
    assert s == front + [last];
    assert DigitChar(DigitValue(last)) == last;
    if |s| > 1 {
      PrintRead(front);
      if |front| == 1 {
        assert front[..|front| - 1] == [];
        assert Read(front) == DigitValue(front[0]) != 0;
      }
      assert Read(s) / 10 == Read(front) && Read(s) % 10 == DigitValue(last);
    } else {
      assert Read(front) == 0;
    }
  }

  /** Reading and printing back gives the same text exactly for canonical text. */
  lemma RoundTripIff(s: string)
    requires s != [] && IsDigits(s)
    ensures Print(Read(s)) == s <==> IsCanonical(s)
  {
    if IsCanonical(s) { PrintRead(s); }
  }

  lemma PrintInjective(m: nat, n: nat)
    requires Print(m) == Print(n)
    ensures m == n
  {
    ReadPrint(m);
    ReadPrint(n);
  }

  function Pow10(k: nat): nat {
    if k == 0 then 1 else 10 * Pow10(k - 1)
  }

  lemma {:induction false} PrintLength(n: nat, k: nat)
    requires 0 < k && n < Pow10(k)
    ensures |Print(n)| <= k
  {
    if n >= 10 {
      assert k > 1;
      PrintLength(n / 10, k - 1);
    }
  }

  /** A signed integer, as String(i) prints it. */
  function PrintInt(i: int): (s: string)
    ensures s != []
    ensures forall c :: c in s ==> IsDigit(c) || c == '-'
  {
    if i < 0 then "-" + Print(-i) else Print(i)
  }

  lemma PrintIntInjective(i: int, j: int)
    requires PrintInt(i) == PrintInt(j)
    ensures i == j
  {
    hide Print;
    assert i < 0 <==> PrintInt(i)[0] == '-';
    assert j < 0 <==> PrintInt(j)[0] == '-';
    if i < 0 && j < 0 {
      assert PrintInt(i)[1..] == Print(-i) && PrintInt(j)[1..] == Print(-j);
      PrintInjective(-i, -j);
    } else if 0 <= i && 0 <= j {
      PrintInjective(i, j);
    }
  }

  /**
    Splitting at a separator that a field does not contain is unambiguous: the
    text after the last separator, and what comes before it, are determined.
   */
  lemma LastFieldDetermined(a: string, x: string, b: string, y: string, sep: char)
    requires a + [sep] + x == b + [sep] + y
    requires sep !in x && sep !in y
    ensures a == b && x == y
  {
    var s, t := a + [sep] + x, b + [sep] + y;
    assert s[|a|] == sep && t[|b|] == sep;
    assert forall i :: |a| < i < |s| ==> s[i] == x[i - |a| - 1];
    assert forall i :: |b| < i < |t| ==> t[i] == y[i - |b| - 1];
    assert |a| == |b|;
    assert a == s[..|a|] && b == t[..|b|];
    assert x == s[|a| + 1..] && y == t[|b| + 1..];
  }

  /** Likewise for the first separator. */
  lemma FirstFieldDetermined(x: string, a: string, y: string, b: string, sep: char)
    requires x + [sep] + a == y + [sep] + b
    requires sep !in x && sep !in y
    ensures a == b && x == y
  {
    var s, t := x + [sep] + a, y + [sep] + b;
    assert s[|x|] == sep && t[|y|] == sep;
    assert forall i :: 0 <= i < |x| ==> s[i] == x[i];
    assert forall i :: 0 <= i < |y| ==> t[i] == y[i];
    assert |x| == |y|;
    assert x == s[..|x|] && y == t[..|y|];
    assert a == s[|x| + 1..] && b == t[|y| + 1..];
  }
}
