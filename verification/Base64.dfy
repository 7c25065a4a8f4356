/**
 The four base64 variants of RFC 4648 as Go's `encoding/base64` decodes them:
 carriage returns and line feeds are skipped, surplus bits in the last letter are
 ignored, and nothing may follow the padding.
 */
module Base64 {
  import opened Wrappers
  import opened Text

  /** The alphabet of section 5 (URL safe) or of section 4, and padding after section 3.2. */
  datatype Variant = Variant(url: bool, padded: bool)

  /** The order in which the manager tries them. */
  const VARIANTS: seq<Variant> := [Variant(false, true), Variant(false, false), Variant(true, true),
    Variant(true, false)]

  const PAD := '='

  function Sextet(url: bool, c: char): (v: int)
    ensures -1 <= v < 64
  {
    if 'A' <= c <= 'Z' then c as int - 'A' as int
    else if 'a' <= c <= 'z' then c as int - 'a' as int + 26
    else if '0' <= c <= '9' then c as int - '0' as int + 52
    else if c == (if url then '-' else '+') then 62
    else if c == (if url then '_' else '/') then 63
    else -1
  }

  function Letter(url: bool, v: nat): (c: char)
    requires v < 64
    ensures Sextet(url, c) == v
  {
    if v < 26 then 'A' + v as char
    else if v < 52 then 'a' + (v - 26) as char
    else if v < 62 then '0' + (v - 52) as char
    else if v == 62 then (if url then '-' else '+')
    else (if url then '_' else '/')
  }

  predicate Valid(url: bool, s: string) {
    forall i :: 0 <= i < |s| ==> Sextet(url, s[i]) >= 0
  }

  // ---- one quantum: four letters, three bytes -------------------------------

  function Byte0(a: int, b: int): (c: char)
    requires 0 <= a < 64 && 0 <= b < 64
    ensures c < 256 as char
  {
    (a * 4 + b / 16) as char
  }

  function Byte1(b: int, c: int): (r: char)
    requires 0 <= b < 64 && 0 <= c < 64
    ensures r < 256 as char
  {
    (b % 16 * 16 + c / 4) as char
  }

  function Byte2(c: int, d: int): (r: char)
    requires 0 <= c < 64 && 0 <= d < 64
    ensures r < 256 as char
  {
    (c % 4 * 64 + d) as char
  }

  function Quantum(url: bool, s: string): (bytes: string)
    requires |s| == 4 && Valid(url, s)
    ensures |bytes| == 3 && IsBytes(bytes)
  {
    var a, b, c, d := Sextet(url, s[0]), Sextet(url, s[1]), Sextet(url, s[2]), Sextet(url, s[3]);
    [Byte0(a, b), Byte1(b, c), Byte2(c, d)]
  }

  /** The letters of one to three bytes, without padding. */
  function Letters(url: bool, s: string): (letters: string)
    requires 1 <= |s| <= 3 && IsBytes(s)
    ensures |letters| == |s| + 1 && Valid(url, letters)
  {
    var x := s[0] as int;
    var y := if |s| > 1 then s[1] as int else 0;
    var z := if |s| > 2 then s[2] as int else 0;
    [Letter(url, x / 4), Letter(url, x % 4 * 16 + y / 16)]
    + (if |s| > 1 then [Letter(url, y % 16 * 4 + z / 64)] else "")
    + (if |s| > 2 then [Letter(url, z % 64)] else "")
  }

  /** What an incomplete last quantum of two or three letters stands for. */
  function Tail(url: bool, s: string): (bytes: string)
    requires 2 <= |s| <= 3 && Valid(url, s)
    ensures |bytes| == |s| - 1 && IsBytes(bytes)
  {
    var a, b := Sextet(url, s[0]), Sextet(url, s[1]);
    [Byte0(a, b)] + (if |s| == 3 then [Byte1(b, Sextet(url, s[2]))] else "")
  }

  lemma LettersDecode(url: bool, s: string)
    requires 1 <= |s| <= 3 && IsBytes(s)
    ensures |s| == 3 ==> Quantum(url, Letters(url, s)) == s
    ensures |s| < 3 ==> Tail(url, Letters(url, s)) == s
  {
    var x := s[0] as int;
    var y := if |s| > 1 then s[1] as int else 0;
    assert x / 4 * 4 + (x % 4 * 16 + y / 16) / 16 == x;
    if |s| == 1 {
      assert Tail(url, Letters(url, s))[0] == s[0];
    } else if |s| == 2 {
      assert Tail(url, Letters(url, s))[0] == s[0] && Tail(url, Letters(url, s))[1] == s[1];
    }
  }

  // ---- whole strings --------------------------------------------------------

  function Padding(v: Variant, n: nat): string {
    if !v.padded then "" else if n == 1 then [PAD, PAD] else if n == 2 then [PAD] else ""
  }

  function Encode(v: Variant, s: string): string
    requires IsBytes(s)
  {
    if s == "" then ""
    else if |s| < 3 then Letters(v.url, s) + Padding(v, |s|)
    else Letters(v.url, s[..3]) + Encode(v, s[3..])
  }

  /** The number of letters in a last quantum that is short, or 0 if `s` is not one. */
  function ShortQuantum(v: Variant, s: string): (n: nat)
    ensures n == 0 || (2 <= n <= 3 && n <= |s| && Valid(v.url, s[..n]))
  {
    if !v.padded then
      if 2 <= |s| <= 3 && Valid(v.url, s) then
        assert s[..|s|] == s;
        |s|
      else 0
    else if |s| == 4 && s[2] == PAD && s[3] == PAD && Valid(v.url, s[..2]) then 2
    else if |s| == 4 && s[3] == PAD && Valid(v.url, s[..3]) then 3
    else 0
  }

  function DecodeQuanta(v: Variant, s: string): Option<string> {
    if s == "" then Some("")
    else if |s| >= 4 && Valid(v.url, s[..4]) then
      match DecodeQuanta(v, s[4..])
      case None => None
      case Some(rest) => Some(Quantum(v.url, s[..4]) + rest)
    else
      var n := ShortQuantum(v, s);
      if n == 0 then None else Some(Tail(v.url, s[..n]))
  }

  function DropNewlines(s: string): string {
    if s == "" then ""
    else (if s[0] == '\n' || s[0] == '\r' then "" else [s[0]]) + DropNewlines(s[1..])
  }

  /** `(*Encoding).DecodeString` */
  function Decode(v: Variant, s: string): Option<string> {
    DecodeQuanta(v, DropNewlines(s))
  }

  /** The variants in order, the first that accepts winning. */
  function DecodeAny(s: string): Option<string> {
    FirstOf(s, 0)
  }

  function FirstOf(s: string, k: nat): Option<string>
    requires k <= |VARIANTS|
    decreases |VARIANTS| - k
  {
    if k == |VARIANTS| then None
    else if Decode(VARIANTS[k], s).Some? then Decode(VARIANTS[k], s)
    else FirstOf(s, k + 1)
  }

  // ---- inverse and unambiguous ----------------------------------------------

  predicate IsCode(v: Variant, c: char) {
    Sextet(v.url, c) >= 0 || c == PAD
  }

  lemma {:induction false} EncodeIsCode(v: Variant, s: string)
    requires IsBytes(s)
    ensures forall i :: 0 <= i < |Encode(v, s)| ==> IsCode(v, Encode(v, s)[i])
  {
    if |s| >= 3 {
      EncodeIsCode(v, s[3..]);
    }
  }

  lemma ShortEncodingDecodes(v: Variant, s: string)
    requires 0 < |s| < 3 && IsBytes(s)
    ensures DecodeQuanta(v, Encode(v, s)) == Some(s)
  {
    var e, l := Encode(v, s), Letters(v.url, s);
    LettersDecode(v.url, s);
    assert e == l + Padding(v, |s|);
    assert e[..|l|] == l;
    if v.padded {
      assert |e| == 4 && e[3] == PAD;
      assert !Valid(v.url, e[..4]) by {
        assert Sextet(v.url, e[..4][3]) < 0;
      }
      assert |s| == 2 ==> e[2] == l[2];
    } else {
      assert e == l;
    }
    assert ShortQuantum(v, e) == |l|;
  }

  lemma {:induction false} QuantaOfEncode(v: Variant, s: string)
    requires IsBytes(s)
    ensures DecodeQuanta(v, Encode(v, s)) == Some(s)
  {
    if 0 < |s| < 3 {
      ShortEncodingDecodes(v, s);
    } else if |s| >= 3 {
      var e, l := Encode(v, s), Letters(v.url, s[..3]);
      LettersDecode(v.url, s[..3]);
      QuantaOfEncode(v, s[3..]);
      assert e == l + Encode(v, s[3..]);
      assert e[..4] == l && e[4..] == Encode(v, s[3..]);
      assert s == s[..3] + s[3..];
    }
  }

  lemma {:induction false} DropsNothing(s: string)
    requires '\n' !in s && '\r' !in s
    ensures DropNewlines(s) == s
  {
    if s != "" {
      DropsNothing(s[1..]);
    }
  }

  lemma DecodeOfEncode(v: Variant, s: string)
    requires IsBytes(s)
    ensures Decode(v, Encode(v, s)) == Some(s)
  {
    EncodeIsCode(v, s);
    DropsNothing(Encode(v, s));
    QuantaOfEncode(v, s);
  }

  lemma AlphabetsAgree(u: bool, w: bool, s: string)
    requires Valid(u, s) && Valid(w, s)
    ensures |s| == 4 ==> Quantum(u, s) == Quantum(w, s)
    ensures 2 <= |s| <= 3 ==> Tail(u, s) == Tail(w, s)
  {
    assert forall i :: 0 <= i < |s| ==> Sextet(u, s[i]) == Sextet(w, s[i]);
  }

  /** Two variants that accept the same text read the same bytes from it. */
  lemma {:induction false} QuantaAreUnambiguous(v: Variant, w: Variant, s: string)
    requires DecodeQuanta(v, s).Some? && DecodeQuanta(w, s).Some?
    ensures DecodeQuanta(v, s) == DecodeQuanta(w, s)
  {
    if s != "" {
      if |s| >= 4 && ShortQuantum(v, s) > 0 {
        ShortMeansNotFull(v, w.url, s);
      }
      if |s| >= 4 && ShortQuantum(w, s) > 0 {
        ShortMeansNotFull(w, v.url, s);
      }
      if |s| >= 4 && Valid(v.url, s[..4]) {
        AlphabetsAgree(v.url, w.url, s[..4]);
        QuantaAreUnambiguous(v, w, s[4..]);
      } else {
        ShortQuantaAgree(v, w, s);
        AlphabetsAgree(v.url, w.url, s[..ShortQuantum(v, s)]);
      }
    }
  }

  lemma ShortMeansNotFull(v: Variant, url: bool, s: string)
    requires ShortQuantum(v, s) > 0 && |s| >= 4
    ensures !Valid(url, s[..4])
  {
    assert Sextet(url, s[..4][3]) < 0;
  }

  lemma ShortQuantaAgree(v: Variant, w: Variant, s: string)
    requires ShortQuantum(v, s) > 0 && ShortQuantum(w, s) > 0
    ensures ShortQuantum(v, s) == ShortQuantum(w, s)
  {
    if v.padded && w.padded {
      assert s[2] == PAD ==> s[..3][2] == PAD;
    }
  }

  lemma DecodeIsUnambiguous(v: Variant, w: Variant, s: string)
    requires Decode(v, s).Some? && Decode(w, s).Some?
    ensures Decode(v, s) == Decode(w, s)
  {
    QuantaAreUnambiguous(v, w, DropNewlines(s));
  }

  /** The fallback order never matters: any accepting variant gives the answer. */
  lemma DecodeAnyIsAny(v: Variant, s: string)
    requires Decode(v, s).Some?
    ensures DecodeAny(s) == Decode(v, s)
  {
    assert v == VARIANTS[(if v.url then 2 else 0) + (if v.padded then 0 else 1)];
    FirstOfAccepts(s, 0);
    var k :| 0 <= k < |VARIANTS| && DecodeAny(s) == Decode(VARIANTS[k], s) && DecodeAny(s).Some?;
    DecodeIsUnambiguous(v, VARIANTS[k], s);
  }

  lemma {:induction false} FirstOfAccepts(s: string, k: nat)
    requires k <= |VARIANTS|
    ensures match FirstOf(s, k)
            case Some(_) => exists i :: k <= i < |VARIANTS| && FirstOf(s, k) == Decode(VARIANTS[i], s)
            case None => forall i :: k <= i < |VARIANTS| ==> Decode(VARIANTS[i], s).None?
    decreases |VARIANTS| - k
  {
    if k < |VARIANTS| {
      FirstOfAccepts(s, k + 1);
    }
  }

  lemma DecodeAnyOfEncode(v: Variant, s: string)
    requires IsBytes(s)
    ensures DecodeAny(Encode(v, s)) == Some(s)
  {
    DecodeOfEncode(v, s);
    DecodeAnyIsAny(v, Encode(v, s));
  }

  /** The manager's loop over the four encodings. */
  method DecodeBase64(value: string) returns (r: Option<string>)
    ensures r == DecodeAny(value)
    ensures forall v: Variant :: Decode(v, value).Some? ==> r == Decode(v, value)
    ensures r.None? ==> forall v: Variant :: Decode(v, value).None?
  {
    forall v: Variant | Decode(v, value).Some? ensures DecodeAny(value) == Decode(v, value) {
      DecodeAnyIsAny(v, value);
    }
    for k := 0 to |VARIANTS|
      invariant DecodeAny(value) == FirstOf(value, k)
    {
      var decoded := Decode(VARIANTS[k], value);
      if decoded.Some? {
        return decoded;
      }
    }
    return None;
  }
}
