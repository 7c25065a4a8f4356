/**
 Decimal numerals, as printed by the manager in node tags and recognised by the
 interception script in addresses and UIDs. One `char` stands for one byte.
 */
module Decimal {
  predicate IsDigit(c: char) {
    '0' <= c <= '9'
  }

  predicate AllDigits(s: string) {
    forall i :: 0 <= i < |s| ==> IsDigit(s[i])
  }

  function Value(s: string): nat
    requires AllDigits(s)
  {
    if s == "" then 0 else 10 * Value(s[..|s| - 1]) + (s[|s| - 1] as int - '0' as int)
  }

  function Print(n: nat): (s: string)
    ensures AllDigits(s) && s != ""
  {
    var last := ['0' + (n % 10) as char];
    if n < 10 then last else Print(n / 10) + last
  }

  /** No sign, no leading zero, at least one digit. */
  predicate Canonical(s: string) {
    s != "" && AllDigits(s) && (s[0] == '0' ==> |s| == 1)
  }

  function Power(k: nat): nat {
    if k == 0 then 1 else 10 * Power(k - 1)
  }

  /** Base ten, the most significant digit first. */
  lemma PrintAppendsDigit(q: nat, r: nat)
    requires r < 10
    ensures Print(10 * q + r) == (if q == 0 then "" else Print(q)) + ["0123456789"[r]]
  {
    assert (10 * q + r) / 10 == q && (10 * q + r) % 10 == r;
  }

  lemma {:induction false} ValueOfPrint(n: nat)
    ensures Value(Print(n)) == n
  {
    var s := Print(n);
    if n >= 10 {
      ValueOfPrint(n / 10);
      assert s[..|s| - 1] == Print(n / 10);
    }
  }

  lemma {:induction false} PrintIsCanonical(n: nat)
    ensures Canonical(Print(n)) && (n > 0 ==> Print(n)[0] != '0')
  {
    if n >= 10 {
      PrintIsCanonical(n / 10);
      assert Print(n)[0] == Print(n / 10)[0];
    }
  }

  lemma {:induction false} ValueIsPositive(s: string)
    requires Canonical(s) && s[0] != '0'
    ensures Value(s) > 0
  {
    if |s| > 1 {
      ValueIsPositive(s[..|s| - 1]);
    }
  }

  /** Canonical numerals and numbers are in one-to-one correspondence. */
  lemma {:induction false} PrintOfValue(s: string)
    requires Canonical(s)
    ensures Print(Value(s)) == s
  {
    var front := s[..|s| - 1];
    if |s| > 1 {
      assert Canonical(front);
      PrintOfValue(front);
      ValueIsPositive(front);
      assert Value(s) / 10 == Value(front);
      assert s == front + [s[|s| - 1]];
    } else {
      assert front == "";
    }
  }

  lemma PrintIsInjective(m: nat, n: nat)
    ensures Print(m) == Print(n) ==> m == n
  {
    ValueOfPrint(m);
    ValueOfPrint(n);
  }

  /** A canonical numeral of k + 1 digits or more denotes at least ten to the k. */
  lemma {:induction false} LongMeansLarge(s: string, k: nat)
    requires Canonical(s) && |s| > k > 0
    ensures Value(s) >= Power(k)
  {
    var front := s[..|s| - 1];
    assert Canonical(front);
    if k == 1 {
      ValueIsPositive(front);
    } else {
      LongMeansLarge(front, k - 1);
    }
  }
}
