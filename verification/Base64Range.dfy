/** The alphabets, and exactly which texts a variant reads as which bytes. */
module Base64Range {
  import opened Wrappers
  import opened Text
  import opened Base64

  // ---- the alphabets ----------------------------------------------------------

  const UPPER := "ABCDEFGHIJKLMNOPQRSTUVWXYZ"
  const LOWER := "abcdefghijklmnopqrstuvwxyz"
  const DIGITS := "0123456789"

  /** Tables 1 and 2 of RFC 4648. */
  function Alphabet(url: bool): (s: string)
    ensures |s| == 64
  {
    UPPER + LOWER + DIGITS + (if url then "-_" else "+/")
  }

  lemma UpperAt(i: nat)
    requires i < |UPPER|
    ensures UPPER[i] == 'A' + i as char
  {
  }

  lemma LowerAt(i: nat)
    requires i < |LOWER|
    ensures LOWER[i] == 'a' + i as char
  {
  }

  lemma DigitAt(i: nat)
    requires i < |DIGITS|
    ensures DIGITS[i] == '0' + i as char
  {
  }

  lemma AlphabetHasLetter(url: bool, v: nat)
    requires v < 64
    ensures Alphabet(url)[v] == Letter(url, v)
  {
    if v < 26 {
      UpperAt(v);
    } else if v < 52 {
      LowerAt(v - 26);
    } else if v < 62 {
      DigitAt(v - 52);
    }
  }

  lemma SextetIsPosition(url: bool, c: char, v: nat)
    requires v < 64
    ensures Sextet(url, c) == v <==> Alphabet(url)[v] == c
  {
    AlphabetHasLetter(url, v);
  }

  // ---- groups -----------------------------------------------------------------

  /** A number of 24 bits has one way to be written with four digits of 6 bits. */
  lemma DigitsAreUnique(x: nat, y: nat, z: nat, a: nat, b: nat, c: nat, d: nat)
    requires x < 256 && y < 256 && z < 256 && a < 64 && b < 64 && c < 64 && d < 64
    requires ((a * 64 + b) * 64 + c) * 64 + d == (x * 256 + y) * 256 + z
    ensures a == x / 4 && b == x % 4 * 16 + y / 16 && c == y % 16 * 4 + z / 64 && d == z % 64
  {
    var p, q, r, t := x / 4, x % 4, y / 16, y % 16;
    var u, w := z / 64, z % 64;
    assert x == 4 * p + q && y == 16 * r + t && z == 64 * u + w;
    assert ((a * 64 + b) * 64 + c) * 64 + d == ((p * 64 + (q * 16 + r)) * 64 + (t * 4 + u)) * 64 + w;
  }

  /** Three bytes are a number of 24 bits, written with its four digits of 6 bits. */
  lemma GroupIsNumber(v: Variant, s: string, rest: string, a: nat, b: nat, c: nat, d: nat)
    requires |s| == 3 && IsBytes(s) && IsBytes(rest)
    requires a < 64 && b < 64 && c < 64 && d < 64
    requires ((a * 64 + b) * 64 + c) * 64 + d == (s[0] as int * 256 + s[1] as int) * 256 + s[2] as int
    ensures var digit := Alphabet(v.url);
            Encode(v, s + rest) == [digit[a], digit[b], digit[c], digit[d]] + Encode(v, rest)
  {
    DigitsAreUnique(s[0] as int, s[1] as int, s[2] as int, a, b, c, d);
    AlphabetHasLetter(v.url, a);
    AlphabetHasLetter(v.url, b);
    AlphabetHasLetter(v.url, c);
    AlphabetHasLetter(v.url, d);
    assert (s + rest)[..3] == s && (s + rest)[3..] == rest;
  }

  /** One or two bytes are filled up with zero bits, and with padding where the variant pads. */
  lemma LastGroupIsNumber(v: Variant, s: string, a: nat, b: nat, c: nat)
    requires 1 <= |s| <= 2 && IsBytes(s)
    requires a < 64 && b < 64 && c < 64
    requires (a * 64 + b) * 64 + c == s[0] as int * 1024 + (if |s| == 2 then s[1] as int * 4 else 0)
    ensures var digit := Alphabet(v.url);
            Encode(v, s) == [digit[a], digit[b]]
                            + (if |s| == 2 then [digit[c]] else if v.padded then "=" else "")
                            + (if v.padded then "=" else "")
  {
    DigitsAreUnique(s[0] as int, if |s| == 2 then s[1] as int else 0, 0, a, b, c, 0);
    AlphabetHasLetter(v.url, a);
    AlphabetHasLetter(v.url, b);
    AlphabetHasLetter(v.url, c);
  }

  // ---- what is accepted ---------------------------------------------------------

  /** Behind `n` letters: nothing, or what fills the last quantum of a padded variant. */
  function Filling(v: Variant, n: nat): string {
    if !v.padded || n % 4 == 0 then "" else if n % 4 == 2 then "==" else "="
  }

  /** The text is `n` letters of the alphabet and the filling; a last quantum has no single letter. */
  predicate HasLetters(v: Variant, s: string, n: nat) {
    n <= |s| && n % 4 != 1 && Valid(v.url, s[..n]) && s[n..] == Filling(v, n)
  }

  /** The letters are those of the alphabet. */
  lemma ValidIsAlphabet(url: bool, c: char)
    ensures Sextet(url, c) >= 0 <==> c in Alphabet(url)
  {
    if Sextet(url, c) >= 0 {
      SextetIsPosition(url, c, Sextet(url, c));
    }
    if v :| 0 <= v < 64 && Alphabet(url)[v] == c {
      SextetIsPosition(url, c, v);
    }
  }

  lemma ShortForm(v: Variant, s: string, n: nat)
    requires 0 < n < 4
    ensures HasLetters(v, s, n) ==> ShortQuantum(v, s) == n
    ensures ShortQuantum(v, s) == n ==> HasLetters(v, s, n)
  {
    if v.padded && |s| == 4 && n <= 3 {
      assert |s[n..]| == 4 - n;
      assert s[n..] == "=" ==> s[n..][0] == s[3];
      assert s[n..] == "==" ==> s[n..][0] == s[2] && s[n..][1] == s[3];
      assert n == 3 && s[2] == PAD ==> s[..3][2] == PAD;
    }
    assert |s| == n ==> s[..n] == s;
  }

  lemma NotShort(v: Variant, s: string, n: nat)
    requires HasLetters(v, s, n) && n < 4 <= |s|
    ensures !Valid(v.url, s[..4])
  {
    assert s[n..][3 - n] == s[3] == s[..4][3];
  }

  lemma ValidParts(url: bool, a: string, b: string)
    ensures Valid(url, a + b) <==> Valid(url, a) && Valid(url, b)
  {
    var s := a + b;
    assert forall i :: 0 <= i < |a| ==> s[i] == a[i];
    assert forall i :: |a| <= i < |s| ==> s[i] == b[i - |a|];
    assert forall i :: 0 <= i < |b| ==> b[i] == s[|a| + i];
  }

  lemma FullForm(v: Variant, s: string, n: nat)
    requires n >= 4
    ensures HasLetters(v, s, n) <==> |s| >= 4 && Valid(v.url, s[..4]) && HasLetters(v, s[4..], n - 4)
  {
    if 4 <= n <= |s| {
      assert s[4..][n - 4..] == s[n..];
      assert s[..n] == s[..4] + s[4..][..n - 4];
      ValidParts(v.url, s[..4], s[4..][..n - 4]);
    }
  }

  /** A variant accepts exactly letters of its alphabet with its filling. */
  lemma {:induction false} AcceptsExactly(v: Variant, s: string)
    ensures DecodeQuanta(v, s).Some? <==> exists n: nat :: HasLetters(v, s, n)
  {
    if s == "" {
      assert HasLetters(v, s, 0);
    } else if |s| >= 4 && Valid(v.url, s[..4]) {
      AcceptsExactly(v, s[4..]);
      if n: nat :| HasLetters(v, s[4..], n) {
        FullForm(v, s, n + 4);
      }
      if n: nat :| HasLetters(v, s, n) {
        if n < 4 {
          NotShort(v, s, n);
        }
        FullForm(v, s, n);
      }
    } else {
      var k := ShortQuantum(v, s);
      if k > 0 {
        ShortForm(v, s, k);
      }
      if n: nat :| HasLetters(v, s, n) {
        if n >= 4 {
          FullForm(v, s, n);
        } else if n > 0 {
          ShortForm(v, s, n);
        }
      }
    }
  }


  /** Two texts with the same letters but for the surplus bits of the last one. */
  predicate DifferInSurplus(v: Variant, s: string, t: string, n: nat) {
    && HasLetters(v, s, n) && HasLetters(v, t, n) && n % 4 != 0
    && s[..n - 1] == t[..n - 1]
    && var surplus := if n % 4 == 2 then 16 else 4;
       Sextet(v.url, s[n - 1]) / surplus == Sextet(v.url, t[n - 1]) / surplus
  }

  lemma {:induction false} SurplusBitsAreIgnored(v: Variant, s: string, t: string, n: nat)
    requires DifferInSurplus(v, s, t, n)
    ensures DecodeQuanta(v, s) == DecodeQuanta(v, t)
  {
    if n >= 4 {
      FullForm(v, s, n);
      FullForm(v, t, n);
      TailsDiffer(v, s, t, n);
      SurplusBitsAreIgnored(v, s[4..], t[4..], n - 4);
    } else {
      LastQuantum(v, s, n);
      LastQuantum(v, t, n);
      TailIgnoresSurplus(v, s, t, n);
    }
  }

  lemma TailsDiffer(v: Variant, s: string, t: string, n: nat)
    requires DifferInSurplus(v, s, t, n) && n >= 4
    requires HasLetters(v, s[4..], n - 4) && HasLetters(v, t[4..], n - 4)
    ensures s[..4] == t[..4] && DifferInSurplus(v, s[4..], t[4..], n - 4)
  {
    assert s[..4] == s[..n - 1][..4] && t[..4] == t[..n - 1][..4];
    assert s[4..][..n - 5] == s[..n - 1][4..] && t[4..][..n - 5] == t[..n - 1][4..];
  }

  lemma TailIgnoresSurplus(v: Variant, s: string, t: string, n: nat)
    requires DifferInSurplus(v, s, t, n) && n < 4
    ensures Tail(v.url, s[..n]) == Tail(v.url, t[..n])
  {
    var a, b := s[..n], t[..n];
    assert s[..n - 1][0] == a[0] && t[..n - 1][0] == b[0];
    if n == 3 {
      assert s[..n - 1][1] == a[1] && t[..n - 1][1] == b[1];
      Tails3(v.url, a, b);
    } else {
      Tails2(v.url, a, b);
    }
  }

  lemma Tails2(url: bool, a: string, b: string)
    requires |a| == |b| == 2 && Valid(url, a) && Valid(url, b)
    requires a[0] == b[0] && Sextet(url, a[1]) / 16 == Sextet(url, b[1]) / 16
    ensures Tail(url, a) == Tail(url, b)
  {
  }

  lemma Tails3(url: bool, a: string, b: string)
    requires |a| == |b| == 3 && Valid(url, a) && Valid(url, b)
    requires a[0] == b[0] && a[1] == b[1] && Sextet(url, a[2]) / 4 == Sextet(url, b[2]) / 4
    ensures Tail(url, a) == Tail(url, b)
  {
  }

  lemma LastQuantum(v: Variant, s: string, n: nat)
    requires HasLetters(v, s, n) && 0 < n < 4
    ensures DecodeQuanta(v, s) == Some(Tail(v.url, s[..n]))
  {
    ShortForm(v, s, n);
    if |s| >= 4 {
      NotShort(v, s, n);
    }
  }

  // ---- line breaks ----------------------------------------------------------------

  lemma {:induction false} BreakIsDropped(a: string, c: char, b: string)
    requires c == '\n' || c == '\r'
    ensures DropNewlines(a + [c] + b) == DropNewlines(a + b)
  {
    if a == "" {
      assert a + [c] + b == [c] + b && ([c] + b)[1..] == b && a + b == b;
    } else {
      BreakIsDropped(a[1..], c, b);
      assert (a + [c] + b)[1..] == a[1..] + [c] + b && (a + b)[1..] == a[1..] + b;
    }
  }

  /** Line breaks may stand anywhere. */
  lemma LineBreaksAreSkipped(v: Variant, a: string, c: char, b: string)
    requires c == '\n' || c == '\r'
    ensures Decode(v, a + [c] + b) == Decode(v, a + b)
  {
    BreakIsDropped(a, c, b);
  }

  lemma AcceptedText(v: Variant, s: string)
    requires '\n' !in s && '\r' !in s
    ensures Decode(v, s).Some? <==> exists n: nat :: HasLetters(v, s, n)
  {
    DropsNothing(s);
    AcceptsExactly(v, s);
  }
}
