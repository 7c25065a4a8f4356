/** What names become in tags, said without the functions that compute them. */
module NameFacts {
  import opened NodeUri
  import opened Names
  import Base64Range
  import Decimal

  // ---- sanitising ---------------------------------------------------------------

  /** The safe bytes, listed. */
  lemma SafeBytes(c: char)
    ensures Safe(c) <==> c in Base64Range.UPPER + Base64Range.LOWER + Base64Range.DIGITS + "-_"
  {
    Base64Range.ValidIsAlphabet(true, c);
  }

  predicate AllUnsafe(s: string) {
    forall i :: 0 <= i < |s| ==> !Safe(s[i])
  }

  lemma {:induction false} UnsafeRunIsSkipped(u: string, y: string)
    requires AllUnsafe(u) && (y == "" || Safe(y[0]))
    ensures SkipUnsafe(u + y) == y
  {
    if u == "" {
      assert u + y == y;
    } else {
      UnsafeRunIsSkipped(u[1..], y);
      assert (u + y)[1..] == u[1..] + y;
    }
  }

  /** A run of unsafe bytes, however long, is one dash; safe bytes stay. */
  lemma {:induction false} SanitizeReplacesRun(x: string, u: string, y: string)
    requires AllSafe(x) && u != "" && AllUnsafe(u) && (y == "" || Safe(y[0]))
    ensures Sanitize(x + u + y) == x + "-" + Sanitize(y)
  {
    if x == "" {
      UnsafeRunIsSkipped(u, y);
      assert x + u + y == u + y && (u + y)[0] == u[0];
    } else {
      SanitizeReplacesRun(x[1..], u, y);
      assert (x + u + y)[1..] == x[1..] + u + y && (x + u + y)[0] == x[0];
    }
  }

  // ---- shortening -----------------------------------------------------------------

  predicate AllDashes(s: string) {
    forall i :: 0 <= i < |s| ==> s[i] == DASH
  }

  /** The text between the dashes at both ends. */
  predicate IsCore(core: string) {
    core == "" || (core[0] != DASH && core[|core| - 1] != DASH)
  }

  lemma {:induction false} LeftDashesGo(a: string, s: string)
    requires AllDashes(a) && (s == "" || s[0] != DASH)
    ensures TrimDashesLeft(a + s) == s
  {
    if a == "" {
      assert a + s == s;
    } else {
      LeftDashesGo(a[1..], s);
      assert (a + s)[1..] == a[1..] + s;
    }
  }

  lemma {:induction false} RightDashesGo(s: string, b: string)
    requires AllDashes(b) && (s == "" || s[|s| - 1] != DASH)
    ensures TrimDashesRight(s + b) == s
  {
    if b == "" {
      assert s + b == s;
    } else {
      RightDashesGo(s, b[..|b| - 1]);
      assert (s + b)[..|s + b| - 1] == s + b[..|b| - 1];
    }
  }

  lemma OnlyDashesAreTrimmed(s: string, a: string, core: string, b: string)
    requires s == a + core + b && AllDashes(a) && AllDashes(b) && IsCore(core)
    ensures TrimDashesRight(TrimDashesLeft(s)) == core
  {
    if core == "" {
      assert s == (a + b) + "" && AllDashes(a + b);
      LeftDashesGo(a + b, "");
    } else {
      assert s == a + (core + b) && (core + b)[0] == core[0];
      LeftDashesGo(a, core + b);
      RightDashesGo(core, b);
    }
  }

  /** A node name is what stands between the outer dashes, cut to 36 bytes, or "node". */
  lemma ShortNameIsCore(raw: string, a: string, core: string, b: string)
    requires Sanitize(raw) == a + core + b && AllDashes(a) && AllDashes(b) && IsCore(core)
    ensures ShortName(raw) == if core == "" then "node" else if |core| > 36 then core[..36] else core
  {
    OnlyDashesAreTrimmed(Sanitize(raw), a, core, b);
  }

  /** Every text has such a core. */
  lemma {:induction false} CoreExists(s: string) returns (a: string, core: string, b: string)
    ensures s == a + core + b && AllDashes(a) && AllDashes(b) && IsCore(core)
  {
    if IsCore(s) {
      a, core, b := "", s, "";
    } else if s[0] == DASH {
      a, core, b := CoreExists(s[1..]);
      a := [DASH] + a;
    } else {
      a, core, b := CoreExists(s[..|s| - 1]);
      b := b + [DASH];
    }
  }

  // ---- percent escapes --------------------------------------------------------------

  const UPPER_HEX := "0123456789ABCDEF"
  const LOWER_HEX := "0123456789abcdef"

  /** A hexadecimal digit, in either case. */
  datatype Hex = Hex(value: nat, upper: bool) {
    predicate Ok() {
      value < 16
    }

    function Letter(): char
      requires Ok()
    {
      if upper then UPPER_HEX[value] else LOWER_HEX[value]
    }
  }

  /** A piece of an escaped text: a byte as it is, or a byte in two hexadecimal digits. */
  datatype Piece = Plain(byte: char) | Escaped(high: Hex, low: Hex)

  predicate PieceOk(p: Piece) {
    match p
    case Plain(byte) => byte != '%'
    case Escaped(high, low) => high.Ok() && low.Ok()
  }

  function PieceText(p: Piece): string
    requires PieceOk(p)
  {
    match p
    case Plain(byte) => [byte]
    case Escaped(high, low) => ['%', high.Letter(), low.Letter()]
  }

  function PieceByte(p: Piece): char
    requires PieceOk(p)
  {
    match p
    case Plain(byte) => byte
    case Escaped(high, low) => (high.value * 16 + low.value) as char
  }

  predicate PiecesOk(pieces: seq<Piece>) {
    forall i :: 0 <= i < |pieces| ==> PieceOk(pieces[i])
  }

  function EscapedText(pieces: seq<Piece>): string
    requires PiecesOk(pieces)
  {
    if pieces == [] then "" else PieceText(pieces[0]) + EscapedText(pieces[1..])
  }

  function PlainText(pieces: seq<Piece>): string
    requires PiecesOk(pieces)
  {
    if pieces == [] then "" else [PieceByte(pieces[0])] + PlainText(pieces[1..])
  }

  lemma LetterIsHex(h: Hex)
    requires h.Ok()
    ensures IsHex(h.Letter()) && HexDigit(h.Letter()) == h.value
  {
  }

  lemma HexExists(c: char) returns (h: Hex)
    requires IsHex(c)
    ensures h.Ok() && h.Letter() == c
  {
    h := Hex(HexDigit(c), c < 'a');
  }

  lemma ValidAfterPlain(c: char, rest: string)
    requires c != '%'
    ensures ValidEscapes([c] + rest) <==> ValidEscapes(rest)
  {
    var s := [c] + rest;
    assert forall i :: 0 <= i < |rest| ==> rest[i] == s[i + 1];
    assert forall i :: 1 <= i < |s| ==> s[i] == rest[i - 1];
  }

  lemma ValidAfterEscape(high: char, low: char, rest: string)
    requires IsHex(high) && IsHex(low)
    ensures ValidEscapes(['%', high, low] + rest) <==> ValidEscapes(rest)
  {
    var s := ['%', high, low] + rest;
    if ValidEscapes(rest) {
      forall i | 0 <= i < |s| && s[i] == '%' ensures i + 2 < |s| && IsHex(s[i + 1]) && IsHex(s[i + 2]) {
        if i >= 3 {
          assert rest[i - 3] == '%';
          assert s[i + 1] == rest[i - 2] && s[i + 2] == rest[i - 1];
        }
      }
    }
    if ValidEscapes(s) {
      forall i | 0 <= i < |rest| && rest[i] == '%' ensures i + 2 < |rest| && IsHex(rest[i + 1]) && IsHex(rest[i + 2]) {
        assert s[i + 3] == '%' && |s| == |rest| + 3;
        assert i + 2 < |rest| ==> s[i + 4] == rest[i + 1] && s[i + 5] == rest[i + 2];
      }
    }
  }

  lemma PieceReads(p: Piece, rest: string)
    requires PieceOk(p)
    ensures ValidEscapes(PieceText(p) + rest) <==> ValidEscapes(rest)
    ensures ValidEscapes(rest) ==> Unescape(PieceText(p) + rest) == [PieceByte(p)] + Unescape(rest)
  {
    var s := PieceText(p) + rest;
    match p
    case Plain(byte) =>
      ValidAfterPlain(byte, rest);
      assert s[1..] == rest;
    case Escaped(high, low) =>
      LetterIsHex(high);
      LetterIsHex(low);
      ValidAfterEscape(high.Letter(), low.Letter(), rest);
      assert s[1] == high.Letter() && s[2] == low.Letter() && s[3..] == rest;
  }

  /** A text that is put together from pieces is well formed, and stands for their bytes. */
  lemma {:induction false} EscapedReads(pieces: seq<Piece>)
    requires PiecesOk(pieces)
    ensures ValidEscapes(EscapedText(pieces)) && Unescape(EscapedText(pieces)) == PlainText(pieces)
  {
    if pieces != [] {
      EscapedReads(pieces[1..]);
      PieceReads(pieces[0], EscapedText(pieces[1..]));
    }
  }

  lemma FirstPiece(s: string) returns (p: Piece)
    requires s != "" && ValidEscapes(s)
    ensures PieceOk(p) && PieceText(p) <= s
  {
    if s[0] == '%' {
      var high := HexExists(s[1]);
      var low := HexExists(s[2]);
      p := Escaped(high, low);
    } else {
      p := Plain(s[0]);
    }
  }

  lemma {:induction false} PiecesExist(s: string) returns (pieces: seq<Piece>)
    requires ValidEscapes(s)
    ensures PiecesOk(pieces) && EscapedText(pieces) == s
  {
    if s == "" {
      pieces := [];
    } else {
      var p := FirstPiece(s);
      var rest := s[|PieceText(p)|..];
      assert s == PieceText(p) + rest;
      PieceReads(p, rest);
      var others := PiecesExist(rest);
      pieces := [p] + others;
      assert pieces[1..] == others;
    }
  }

  ghost predicate IsEscaped(s: string) {
    exists pieces :: PiecesOk(pieces) && EscapedText(pieces) == s
  }

  /** Well-formed texts are exactly those put together from pieces. */
  lemma ValidMeansEscaped(s: string)
    ensures ValidEscapes(s) <==> IsEscaped(s)
  {
    if ValidEscapes(s) {
      var pieces := PiecesExist(s);
    }
    if pieces :| PiecesOk(pieces) && EscapedText(pieces) == s {
      EscapedReads(pieces);
    }
  }

  /** A fragment that is itself escaped is read once more; any other one is taken as it is. */
  lemma FragmentReads(url: Url)
    ensures forall pieces :: PiecesOk(pieces) && url.fragment == EscapedText(pieces) ==>
              Fragment(Parsed(url)) == PlainText(pieces)
    ensures !IsEscaped(url.fragment) ==> Fragment(Parsed(url)) == url.fragment
  {
    ValidMeansEscaped(url.fragment);
    forall pieces | PiecesOk(pieces) && url.fragment == EscapedText(pieces)
      ensures Fragment(Parsed(url)) == PlainText(pieces) {
      EscapedReads(pieces);
    }
  }

  // ---- tags ---------------------------------------------------------------------------

  /** A tag, member by member; `core` is the fragment's name between its outer dashes. */
  lemma TagReads(subscription: string, fragment: string, index: nat, a: string, core: string, b: string)
    requires Sanitize(fragment) == a + core + b && AllDashes(a) && AllDashes(b) && IsCore(core)
    ensures var name := if core == "" then "node" else if |core| > 36 then core[..36] else core;
            Tag(subscription, fragment, index)
            == "sub-" + Sanitize(subscription) + "-" + name + "-" + Decimal.Print(index)
  {
    ShortNameIsCore(fragment, a, core, b);
    var name := if core == "" then "node" else if |core| > 36 then core[..36] else core;
    Chain("sub-" + Sanitize(subscription) + "-", name, "-" + Decimal.Print(index));
  }

  lemma Chain(x: string, y: string, z: string)
    ensures x + (y + z) == x + y + z
  {
  }

  /** Two words with a space between: the tag of a node without a name of its own. */
  lemma TwoWordTag(first: string, second: string, index: nat)
    requires AllSafe(first) && AllSafe(second)
    ensures Tag(first + " " + second, "", index)
            == "sub-" + (first + "-" + second) + "-" + "node" + "-" + Decimal.Print(index)
  {
    SanitizeReplacesRun(first, " ", second);
    AlreadySafe(second);
    TagReads(first + " " + second, "", index, "", "", "");
  }
}
