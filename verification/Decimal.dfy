/** Decimal printing as `fmt.Sprintf("%d", …)` does it, and why printed numbers can be told apart. */
module Decimal {

  function Digit(d: int): char
    requires 0 <= d < 10
  {
    ('0' as int + d) as char
  }

  predicate IsDigit(c: char) {
    '0' <= c <= '9'
  }

  /** Decimal digits of a non-negative number, without leading zeros. */
  function Print(n: nat): (s: string)
    ensures s != [] && forall i | 0 <= i < |s| :: IsDigit(s[i])
    ensures |s| > 1 ==> s[0] != '0'
    ensures n > 0 ==> s[0] != '0'
  {
    if n < 10 then [Digit(n)] else Print(n / 10) + [Digit(n % 10)]
  }

  /** `%d` of a signed number. */
  function PrintInt(n: int): string {
    if n < 0 then "-" + Print(-n) else Print(n)
  }

  /** The number a string of digits denotes. */
  function Value(s: string): nat
    requires forall i | 0 <= i < |s| :: IsDigit(s[i])
  {
    if s == [] then 0 else assert IsDigit(s[|s| - 1]); Value(s[..|s| - 1]) * 10 + (s[|s| - 1] as int - '0' as int)
  }

  /** The digits, least significant last, in the usual characters. */
  lemma PrintDigits(n: nat)
    ensures var s, last := Print(n), "0123456789"[n % 10];
            s[|s| - 1] == last && s[..|s| - 1] == if n < 10 then "" else Print(n / 10)
  {
    var digits := "0123456789";
    assert forall d | 0 <= d < 10 :: digits[d] == Digit(d);
  }

  lemma {:induction false} ValueOfPrint(n: nat)
    ensures Value(Print(n)) == n
  {
    var s := Print(n);
    if n >= 10 {
      ValueOfPrint(n / 10);
      assert s[..|s| - 1] == Print(n / 10);
    } else {
      assert s[..|s| - 1] == [];
    }
  }

  /** Digits without a leading zero are what printing their value gives. */
  lemma {:induction false} PrintOfValue(s: string)
    requires s != [] && forall i | 0 <= i < |s| :: IsDigit(s[i])
    requires |s| > 1 ==> s[0] != '0'
    ensures Print(Value(s)) == s
    ensures |s| > 1 ==> Value(s) >= 10
  {
    var front, last := s[..|s| - 1], s[|s| - 1];
    if |s| == 1 {
      assert Value(front) == 0;
      assert s == [last];
    } else {
      PrintOfValue(front);
      assert front[0] == s[0];
      assert Value(front) > 0 by {
        if |front| == 1 {
          assert Value(front[..0]) == 0;
          assert front[0] != '0';
        }
      }
      assert Value(s) / 10 == Value(front);
      assert s == front + [last];
    }
  }

  lemma PrintInjective(m: nat, n: nat)
    ensures Print(m) == Print(n) <==> m == n
  {
    ValueOfPrint(m);
    ValueOfPrint(n);
  }

  lemma PrintIntInjective(m: int, n: int)
    ensures PrintInt(m) == PrintInt(n) <==> m == n
  {
    if m < 0 && n < 0 {
      assert PrintInt(m)[1..] == Print(-m) && PrintInt(n)[1..] == Print(-n);
      PrintInjective(-m, -n);
    } else if m >= 0 && n >= 0 {
      PrintInjective(m, n);
    } else {
      assert !IsDigit('-');
    }
  }

  /** Where the text after the last separator has no separator, the two halves are determined. */
  lemma SplitAtLast(a1: string, b1: string, a2: string, b2: string, sep: char)
    requires a1 + [sep] + b1 == a2 + [sep] + b2
    requires sep !in b1 && sep !in b2
    ensures a1 == a2 && b1 == b2
  {
    var s, t := a1 + [sep] + b1, a2 + [sep] + b2;
    assert s[|a1|] == sep && forall i | |a1| < i < |s| :: s[i] == b1[i - |a1| - 1];
    assert t[|a2|] == sep && forall i | |a2| < i < |t| :: t[i] == b2[i - |a2| - 1];
    assert |a1| == |a2|;
    assert s[..|a1|] == a1 && t[..|a2|] == a2;
    assert s[|a1| + 1..] == b1 && t[|a2| + 1..] == b2;
  }
}
