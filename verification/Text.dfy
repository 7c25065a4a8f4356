/**
 The byte-string operations of Go's `strings` package that the manager relies on.
 One `char` stands for one byte of the Go string.
 */
module Text {
  predicate IsBytes(s: string) {
    forall i :: 0 <= i < |s| ==> s[i] < 256 as char
  }

  // ---- searching ------------------------------------------------------------

  function Index(s: string, c: char): (i: nat)
    requires c in s
    ensures i < |s| && s[i] == c && c !in s[..i]
  {
    if s[0] == c then 0 else
      var j := Index(s[1..], c);
      assert s[..j + 1] == [s[0]] + s[1..][..j];
      j + 1
  }

  predicate ContainsAt(s: string, pattern: string, i: nat) {
    i + |pattern| <= |s| && forall k :: 0 <= k < |pattern| ==> s[i + k] == pattern[k]
  }

  predicate Contains(s: string, pattern: string) {
    exists i :: 0 <= i <= |s| && ContainsAt(s, pattern, i)
  }

  predicate HasPrefix(s: string, c: char) {
    s != "" && s[0] == c
  }

  // ---- splitting and joining ------------------------------------------------

  function Split(s: string, c: char): (parts: seq<string>)
    ensures parts != [] && forall p :: p in parts ==> c !in p
  {
    if c in s then [s[..Index(s, c)]] + Split(s[Index(s, c) + 1..], c) else [s]
  }

  function Join(parts: seq<string>, c: char): string {
    if parts == [] then ""
    else if |parts| == 1 then parts[0]
    else parts[0] + [c] + Join(parts[1..], c)
  }

  lemma {:induction false} JoinOfSplit(s: string, c: char)
    ensures Join(Split(s, c), c) == s
  {
    if c in s {
      JoinOfSplit(s[Index(s, c) + 1..], c);
    }
  }

  lemma IndexOfFirst(a: string, c: char, b: string)
    requires c !in a
    ensures var s := a + [c] + b;
            c in s && Index(s, c) == |a| && s[..|a|] == a && s[|a| + 1..] == b
  {
    var s := a + [c] + b;
    assert s[|a|] == c;
    var i := Index(s, c);
    assert forall k :: 0 <= k < |a| ==> s[k] == a[k] && s[k] != c;
    assert forall k :: 0 <= k < i ==> s[k] in s[..i];
    assert i == |a|;
  }

  lemma {:induction false} SplitAtFirst(a: string, c: char, b: string)
    requires c !in a
    ensures Split(a + [c] + b, c) == [a] + Split(b, c)
  {
    IndexOfFirst(a, c, b);
  }

  lemma {:induction false} SplitOfJoin(parts: seq<string>, c: char)
    requires parts != [] && forall p :: p in parts ==> c !in p
    ensures Split(Join(parts, c), c) == parts
  {
    if |parts| > 1 {
      SplitOfJoin(parts[1..], c);
      SplitAtFirst(parts[0], c, Join(parts[1..], c));
    }
  }

  lemma ContainsAtLeft(x: string, y: string, pattern: string, i: nat)
    requires i + |pattern| <= |x|
    ensures ContainsAt(x + y, pattern, i) <==> ContainsAt(x, pattern, i)
  {
    assert forall k {:trigger pattern[k]} :: 0 <= k < |pattern| ==> (x + y)[i + k] == x[i + k];
  }

  lemma ContainsAtRight(x: string, y: string, pattern: string, i: nat)
    ensures ContainsAt(x + y, pattern, |x| + i) <==> ContainsAt(y, pattern, i)
  {
    if i + |pattern| <= |y| {
      assert forall k {:trigger pattern[k]} :: 0 <= k < |pattern| ==> (x + y)[|x| + i + k] == y[i + k];
    }
  }

  lemma ContainsInPair(a: string, c: char, b: string, pattern: string)
    requires pattern != "" && c !in pattern
    ensures Contains(a + [c] + b, pattern) <==> Contains(a, pattern) || Contains(b, pattern)
  {
    var s, n := a + [c] + b, |pattern|;
    assert s == a + ([c] + b);
    if i :| 0 <= i <= |s| && ContainsAt(s, pattern, i) {
      if i + n <= |a| {
        ContainsAtLeft(a, [c] + b, pattern, i);
      } else if i > |a| {
        ContainsAtRight(a + [c], b, pattern, i - |a| - 1);
      } else {
        assert s[|a|] == c && s[i + (|a| - i)] == pattern[|a| - i];
      }
    }
    if i :| 0 <= i <= |a| && ContainsAt(a, pattern, i) {
      ContainsAtLeft(a, [c] + b, pattern, i);
    }
    if i :| 0 <= i <= |b| && ContainsAt(b, pattern, i) {
      ContainsAtRight(a + [c], b, pattern, i);
    }
  }

  /** A pattern without the separator occurs in a joined text exactly when it occurs in a part. */
  lemma {:induction false} ContainsInJoin(parts: seq<string>, c: char, pattern: string)
    requires pattern != "" && c !in pattern
    ensures Contains(Join(parts, c), pattern) <==> exists k :: 0 <= k < |parts| && Contains(parts[k], pattern)
  {
    if |parts| > 1 {
      var tail := parts[1..];
      ContainsInJoin(tail, c, pattern);
      ContainsInPair(parts[0], c, Join(tail, c), pattern);
      if k :| 0 <= k < |tail| && Contains(tail[k], pattern) {
        assert Contains(parts[k + 1], pattern);
      }
      if k :| 0 <= k < |parts| && Contains(parts[k], pattern) {
        if k > 0 {
          assert Contains(tail[k - 1], pattern);
        }
      }
    }
  }

  // ---- white space ----------------------------------------------------------

  predicate IsContinuation(c: char) {
    128 as char <= c < 192 as char
  }

  /**
   The number of bytes of the white-space rune at the front of `s`, or 0 if there is none:
   the ASCII spaces, U+0085, U+00A0, U+1680, U+2000-200A, U+2028, U+2029, U+202F, U+205F and
   U+3000, which are the runes `unicode.IsSpace` accepts, in UTF-8.
   */
  function SpaceLength(s: string): (n: nat)
    ensures n <= |s| && n <= 3
  {
    if s == "" then 0
    else if s[0] == ' ' || 9 as char <= s[0] <= 13 as char then 1
    else if |s| >= 2 && s[0] == 0xC2 as char && (s[1] == 0x85 as char || s[1] == 0xA0 as char) then 2
    else if |s| >= 3 && IsSpace3(s[0], s[1], s[2]) then 3
    else 0
  }

  predicate IsSpace3(a: char, b: char, c: char) {
    || (a == 0xE1 as char && b == 0x9A as char && c == 0x80 as char)
    || (a == 0xE2 as char && b == 0x80 as char &&
        (0x80 as char <= c <= 0x8A as char || c == 0xA8 as char || c == 0xA9 as char || c == 0xAF as char))
    || (a == 0xE2 as char && b == 0x81 as char && c == 0x9F as char)
    || (a == 0xE3 as char && b == 0x80 as char && c == 0x80 as char)
  }

  /** The number of bytes of the white-space rune at the end of `s`, or 0. */
  function SpaceTail(s: string): (n: nat)
    ensures n <= |s| && n <= 3
    ensures n > 0 ==> SpaceLength(s[|s| - n..]) == n
  {
    if |s| >= 1 && SpaceLength(s[|s| - 1..]) == 1 then 1
    else if |s| >= 2 && SpaceLength(s[|s| - 2..]) == 2 then 2
    else if |s| >= 3 && SpaceLength(s[|s| - 3..]) == 3 then 3
    else 0
  }

  function TrimLeft(s: string): string
    decreases |s|
  {
    if SpaceLength(s) == 0 then s else TrimLeft(s[SpaceLength(s)..])
  }

  function TrimRight(s: string): string
    decreases |s|
  {
    if SpaceTail(s) == 0 then s else TrimRight(s[..|s| - SpaceTail(s)])
  }

  /** `strings.TrimSpace` */
  function Trim(s: string): string {
    TrimRight(TrimLeft(s))
  }

  function Head(s: string): string
    requires s != ""
  {
    if SpaceLength(s) > 0 then "" else [s[0]]
  }

  function Rest(s: string): (r: string)
    requires s != ""
    ensures |r| < |s|
  {
    if SpaceLength(s) > 0 then s[SpaceLength(s)..] else s[1..]
  }

  /** All white space removed: `strings.Join(strings.Fields(s), "")`. */
  function Compact(s: string): string
    decreases |s|
  {
    if s == "" then "" else Head(s) + Compact(Rest(s))
  }

  lemma SpaceLengthOfConcat(a: string, b: string)
    requires a != "" && (b == "" || !IsContinuation(b[0]))
    ensures SpaceLength(a + b) == SpaceLength(a)
  {
    var s := a + b;
    assert s[0] == a[0];
    assert |a| >= 2 ==> s[1] == a[1];
    assert |a| >= 3 ==> s[2] == a[2];
    assert |a| == 1 && |b| >= 1 ==> s[1] == b[0];
    assert |a| == 2 && |b| >= 1 ==> s[2] == b[0];
  }

  lemma StepOfConcat(a: string, b: string)
    requires a != "" && (b == "" || !IsContinuation(b[0]))
    ensures Rest(a + b) == Rest(a) + b && Head(a + b) == Head(a)
  {
    SpaceLengthOfConcat(a, b);
  }

  lemma CompactUnfolds(s: string)
    requires s != ""
    ensures Compact(s) == Head(s) + Compact(Rest(s))
  {
  }

  lemma Associate(x: string, y: string, z: string)
    ensures x + (y + z) == (x + y) + z
  {
  }

  lemma CompactGrows(a: string, b: string, front: string, back: string)
    requires a != "" && (b == "" || !IsContinuation(b[0]))
    requires front == Compact(Rest(a)) && Compact(Rest(a) + b) == front + back
    ensures Compact(a + b) == Compact(a) + back
  {
    StepOfConcat(a, b);
    CompactUnfolds(a + b);
    Associate(Head(a), front, back);
  }

  /** White space cannot straddle a cut that is not followed by a continuation byte. */
  lemma {:induction false} CompactOfConcat(a: string, b: string)
    requires b == "" || !IsContinuation(b[0])
    ensures Compact(a + b) == Compact(a) + Compact(b)
    decreases |a|
  {
    if a == "" {
      assert a + b == b;
    } else {
      CompactOfConcat(Rest(a), b);
      CompactGrows(a, b, Compact(Rest(a)), Compact(b));
    }
  }

  lemma {:induction false} CompactOfTrimLeft(s: string)
    ensures Compact(TrimLeft(s)) == Compact(s)
    decreases |s|
  {
    if SpaceLength(s) > 0 {
      CompactOfTrimLeft(s[SpaceLength(s)..]);
    }
  }

  lemma {:induction false} CompactOfTrimRight(s: string)
    ensures Compact(TrimRight(s)) == Compact(s)
    decreases |s|
  {
    var n := SpaceTail(s);
    if n > 0 {
      var a, b := s[..|s| - n], s[|s| - n..];
      assert s == a + b;
      CompactOfConcat(a, b);
      assert Compact(b) == Compact(b[n..]);
      CompactOfTrimRight(a);
    }
  }

  lemma CompactOfTrim(s: string)
    ensures Compact(Trim(s)) == Compact(s)
  {
    CompactOfTrimLeft(s);
    CompactOfTrimRight(TrimLeft(s));
  }

  /** A byte that is never part of white space survives compaction. */
  lemma {:induction false} CompactKeeps(s: string, c: char)
    requires c in s && ' ' < c < 128 as char
    ensures c in Compact(s)
    decreases |s|
  {
    if SpaceLength(s) > 0 {
      assert c !in s[..SpaceLength(s)];
      assert s == s[..SpaceLength(s)] + s[SpaceLength(s)..];
      CompactKeeps(s[SpaceLength(s)..], c);
    } else if c != s[0] {
      CompactKeeps(s[1..], c);
    }
  }
}
