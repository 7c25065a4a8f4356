/** `validate` of the interception script: which source addresses and UIDs it lets into the nft rules. */
module Tproxy {
  import opened Decimal
  import Text

  // ---- numbers written the one canonical way ------------------------------------

  /** The numerals of the numbers up to `max`. */
  predicate IsNumber(word: string, max: nat) {
    Canonical(word) && Value(word) <= max
  }

  lemma NumbersArePrinted(word: string, max: nat)
    ensures IsNumber(word, max) <==> exists n: nat :: n <= max && word == Print(n)
  {
    if IsNumber(word, max) {
      PrintOfValue(word);
    }
    forall n: nat | n <= max && word == Print(n) ensures IsNumber(word, max) {
      PrintIsCanonical(n);
      ValueOfPrint(n);
    }
  }

  /** The `case` pattern, the length test and the numeric test on one shell word. */
  method CheckNumber(word: string, digits: nat, max: nat) returns (ok: bool)
    requires digits > 0 && max < Power(digits)
    ensures ok <==> IsNumber(word, max)
  {
    if word == "" || !AllDigits(word) || (|word| >= 2 && word[0] == '0' && IsDigit(word[1])) {
      return false;
    }
    if |word| > digits {
      LongMeansLarge(word, digits);
      return false;
    }
    return Value(word) <= max;
  }

  const MAX_UID := 4294967294

  lemma TenDigits()
    ensures MAX_UID < Power(10) && 255 < Power(3)
  {
    assert Power(3) == 1000;
    assert Power(5) == 100000;
    assert Power(8) == 100000000;
  }

  /** The numeric UIDs below the reserved one, without leading zeros. */
  method CheckUid(uid: string) returns (ok: bool)
    ensures ok <==> exists n: nat :: n <= MAX_UID && uid == Print(n)
  {
    TenDigits();
    NumbersArePrinted(uid, MAX_UID);
    ok := CheckNumber(uid, 10, MAX_UID);
  }

  // ---- addresses -------------------------------------------------------------------

  newtype Octet = n: int | 0 <= n <= 255

  function Numeral(n: Octet): (s: string)
    ensures IsNumber(s, 255)
  {
    PrintIsCanonical(n as nat);
    ValueOfPrint(n as nat);
    Print(n as nat)
  }

  datatype Address = Address(a: Octet, b: Octet, c: Octet, d: Octet) {
    function Parts(): (parts: seq<string>)
      ensures |parts| == 4 && forall i :: 0 <= i < 4 ==> IsNumber(parts[i], 255)
    {
      [Numeral(a), Numeral(b), Numeral(c), Numeral(d)]
    }

    /** Section 3.2.2 of RFC 3986, IPv4address. */
    function ToString(): string {
      Text.Join(Parts(), '.')
    }
  }

  ghost predicate IsAddress(s: string) {
    exists address: Address :: s == address.ToString()
  }

  /** What the first `case` lets through. */
  predicate Dotted(s: string) {
    && s != ""
    && (forall i :: 0 <= i < |s| ==> IsDigit(s[i]) || s[i] == '.')
    && s[0] != '.' && s[|s| - 1] != '.'
    && forall i :: 0 < i < |s| ==> !(s[i - 1] == '.' && s[i] == '.')
  }

  lemma DottedConcat(x: string, y: string)
    requires Dotted(x) && Dotted(y)
    ensures Dotted(x + ['.'] + y)
  {
    var s := x + ['.'] + y;
    forall i | 0 < i < |s| ensures !(s[i - 1] == '.' && s[i] == '.') {
      if i > |x| + 1 {
        assert s[i] == y[i - |x| - 1] && s[i - 1] == y[i - 1 - |x| - 1];
      }
    }
  }

  lemma {:induction false} JoinIsDotted(parts: seq<string>)
    requires parts != [] && forall i :: 0 <= i < |parts| ==> parts[i] != "" && AllDigits(parts[i])
    ensures Dotted(Text.Join(parts, '.'))
  {
    assert Dotted(parts[0]);
    if |parts| > 1 {
      JoinIsDotted(parts[1..]);
      DottedConcat(parts[0], Text.Join(parts[1..], '.'));
    }
  }

  lemma AddressSplits(address: Address)
    ensures Dotted(address.ToString()) && Text.Split(address.ToString(), '.') == address.Parts()
  {
    JoinIsDotted(address.Parts());
    forall p | p in address.Parts() ensures '.' !in p {
      assert IsNumber(p, 255);
    }
    Text.SplitOfJoin(address.Parts(), '.');
  }

  /** Printing tells addresses apart, so each accepted string stands for exactly one. */
  lemma AddressesPrintApart(x: Address, y: Address)
    requires x.ToString() == y.ToString()
    ensures x == y
  {
    AddressSplits(x);
    AddressSplits(y);
    assert x.Parts()[0] == y.Parts()[0] && x.Parts()[1] == y.Parts()[1];
    assert x.Parts()[2] == y.Parts()[2] && x.Parts()[3] == y.Parts()[3];
    PrintIsInjective(x.a as nat, y.a as nat);
    PrintIsInjective(x.b as nat, y.b as nat);
    PrintIsInjective(x.c as nat, y.c as nat);
    PrintIsInjective(x.d as nat, y.d as nat);
  }

  function Head(s: string): string {
    if '.' in s then s[..Text.Index(s, '.')] else s
  }

  function Rest(s: string): (rest: string)
    ensures s != "" ==> |rest| < |s|
  {
    if '.' in s then s[Text.Index(s, '.') + 1..] else ""
  }

  /** `read` into `n` names with a dot for separator: the last name takes all that is left. */
  function Fields(s: string, n: nat): (fields: seq<string>)
    requires n > 0
    ensures |fields| == n
    decreases n
  {
    if n == 1 then [s] else [Head(s)] + Fields(Rest(s), n - 1)
  }

  lemma {:induction false} EmptyFields(n: nat)
    requires n > 0
    ensures Fields("", n)[n - 1] == ""
  {
    if n > 1 {
      EmptyFields(n - 1);
    }
  }

  lemma NoDotNoLast(s: string, n: nat)
    requires n > 1 && '.' !in s
    ensures Fields(s, n)[n - 1] == ""
  {
    EmptyFields(n - 1);
  }

  lemma JoinPrepends(first: string, rest: seq<string>)
    requires rest != []
    ensures Text.Join([first] + rest, '.') == first + ['.'] + Text.Join(rest, '.')
  {
    assert ([first] + rest)[1..] == rest;
  }

  lemma CutAtDot(s: string)
    requires '.' in s
    ensures Head(s) + ['.'] + Rest(s) == s
  {
  }

  /** Fields of which the last is not empty can only have come from that many of them joined by dots. */
  lemma {:induction false} FieldsRejoin(s: string, n: nat)
    requires n > 0 && Fields(s, n)[n - 1] != ""
    ensures Text.Join(Fields(s, n), '.') == s
  {
    if n > 1 {
      if '.' in s {
        FieldsRejoin(Rest(s), n - 1);
        JoinPrepends(Head(s), Fields(Rest(s), n - 1));
        CutAtDot(s);
      } else {
        NoDotNoLast(s, n);
      }
    }
  }

  lemma {:induction false} FieldsOfSplit(s: string, n: nat)
    requires n > 0 && |Text.Split(s, '.')| == n
    ensures Fields(s, n) == Text.Split(s, '.')
  {
    if n > 1 {
      FieldsOfSplit(Rest(s), n - 1);
    }
  }

  method ReadFields(s: string, n: nat) returns (fields: seq<string>)
    requires n > 0
    ensures fields == Fields(s, n)
  {
    fields := [];
    var rest := s;
    while |fields| < n - 1
      invariant |fields| < n
      invariant Fields(s, n) == fields + Fields(rest, n - |fields|)
    {
      ghost var others := Fields(Rest(rest), n - |fields| - 1);
      assert fields + ([Head(rest)] + others) == fields + [Head(rest)] + others;
      fields, rest := fields + [Head(rest)], Rest(rest);
    }
    fields := fields + [rest];
  }

  function Parsed(fields: seq<string>): (address: Address)
    requires |fields| == 4 && forall i :: 0 <= i < 4 ==> IsNumber(fields[i], 255)
  {
    assert IsNumber(fields[0], 255) && IsNumber(fields[1], 255) && IsNumber(fields[2], 255) && IsNumber(fields[3], 255);
    Address(Value(fields[0]) as Octet, Value(fields[1]) as Octet, Value(fields[2]) as Octet, Value(fields[3]) as Octet)
  }

  lemma ParsedPartsAreFields(fields: seq<string>)
    requires |fields| == 4 && forall i :: 0 <= i < 4 ==> IsNumber(fields[i], 255)
    ensures Parsed(fields).Parts() == fields
  {
    PrintOfValue(fields[0]);
    PrintOfValue(fields[1]);
    PrintOfValue(fields[2]);
    PrintOfValue(fields[3]);
  }

  lemma NumbersMakeAddress(s: string)
    requires forall i :: 0 <= i < 4 ==> IsNumber(Fields(s, 4)[i], 255)
    ensures IsAddress(s)
  {
    var fields := Fields(s, 4);
    assert IsNumber(fields[3], 255);
    FieldsRejoin(s, 4);
    ParsedPartsAreFields(fields);
    assert s == Parsed(fields).ToString();
  }

  lemma AddressHasNumbers(address: Address)
    ensures Fields(address.ToString(), 4) == address.Parts()
  {
    AddressSplits(address);
    FieldsOfSplit(address.ToString(), 4);
  }

  lemma AddressExactly(s: string, fields: seq<string>)
    requires fields == Fields(s, 4)
    ensures IsAddress(s) <==> Dotted(s) && forall i :: 0 <= i < 4 ==> IsNumber(fields[i], 255)
  {
    forall address: Address | s == address.ToString() ensures Dotted(s) && fields == address.Parts() {
      AddressSplits(address);
      AddressHasNumbers(address);
    }
    if forall i :: 0 <= i < 4 ==> IsNumber(fields[i], 255) {
      NumbersMakeAddress(s);
    }
  }

  method CheckOctets(fields: seq<string>) returns (ok: bool)
    ensures ok <==> forall i :: 0 <= i < |fields| ==> IsNumber(fields[i], 255)
  {
    TenDigits();
    for i := 0 to |fields|
      invariant forall k :: 0 <= k < i ==> IsNumber(fields[k], 255)
    {
      var fits := CheckNumber(fields[i], 3, 255);
      if !fits {
        return false;
      }
    }
    return true;
  }

  /** Accepted exactly when the string is the canonical form of some address. */
  method CheckAddress(s: string) returns (ok: bool)
    ensures ok <==> IsAddress(s)
  {
    ghost var words := Fields(s, 4);
    AddressExactly(s, words);
    if !Dotted(s) {
      return false;
    }
    var fields := ReadFields(s, 4);
    ok := CheckOctets(fields);
  }

  // ---- an independent description of an octet ----------------------------------------

  /** dec-octet in section 3.2.2 of RFC 3986. */
  predicate DecOctet(s: string) {
    && AllDigits(s)
    && ( || |s| == 1
         || (|s| == 2 && s[0] != '0')
         || (|s| == 3 && s[0] == '1')
         || (|s| == 3 && s[0] == '2' && s[1] <= '4')
         || (|s| == 3 && s[0] == '2' && s[1] == '5' && s[2] <= '5'))
  }

  function Digit(c: char): int {
    c as int - '0' as int
  }

  lemma ValueByDigits(s: string)
    requires AllDigits(s) && 1 <= |s| <= 3
    ensures |s| == 1 ==> Value(s) == Digit(s[0])
    ensures |s| == 2 ==> Value(s) == 10 * Digit(s[0]) + Digit(s[1])
    ensures |s| == 3 ==> Value(s) == 100 * Digit(s[0]) + 10 * Digit(s[1]) + Digit(s[2])
  {
    if |s| == 3 {
      assert s[..2][..1] == s[..1];
      assert s[..2][1] == s[1];
    }
  }

  /** The numbers up to 255, written canonically, are the octets of the grammar. */
  lemma OctetsAreDecOctets(s: string)
    ensures IsNumber(s, 255) <==> DecOctet(s)
  {
    TenDigits();
    if DecOctet(s) {
      ValueByDigits(s);
    }
    if IsNumber(s, 255) {
      if |s| > 3 {
        LongMeansLarge(s, 3);
      }
      ValueByDigits(s);
    }
  }
}
