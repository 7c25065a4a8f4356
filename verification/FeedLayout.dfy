/** What comes out of a feed that is put together from given lines, however it is laid out. */
module FeedLayout {
  import opened Wrappers
  import opened Text
  import opened Base64
  import opened FeedBody

  // ---- white space, rune by rune ------------------------------------------------

  /** The white space of Unicode, by code point. */
  predicate SpaceRune(r: nat) {
    || 9 <= r <= 13 || r == 0x20 || r == 0x85 || r == 0xA0 || r == 0x1680
    || 0x2000 <= r <= 0x200A || r == 0x2028 || r == 0x2029 || r == 0x202F || r == 0x205F || r == 0x3000
  }

  /** A white-space rune in UTF-8 (section 3 of RFC 3629). */
  function Utf8(r: nat): (bytes: string)
    requires SpaceRune(r)
    ensures 1 <= |bytes| <= 3
  {
    if r < 0x80 then [r as char]
    else if r < 0x800 then [(0xC0 + r / 64) as char, (0x80 + r % 64) as char]
    else [(0xE0 + r / 4096) as char, (0x80 + r / 64 % 64) as char, (0x80 + r % 64) as char]
  }

  type Space = r: nat | SpaceRune(r) witness 0x20

  function SpaceText(r: Space): (bytes: string)
    ensures 1 <= |bytes| <= 3
  {
    Utf8(r)
  }

  ghost predicate StartsWithSpace(s: string) {
    exists r: Space :: SpaceText(r) <= s
  }

  ghost predicate EndsWithSpace(s: string) {
    exists r: Space :: |SpaceText(r)| <= |s| && s[|s| - |SpaceText(r)|..] == SpaceText(r)
  }

  /** White space of any length and kind. */
  function Spaces(runes: seq<Space>): string {
    if runes == [] then "" else Spaces(runes[..|runes| - 1]) + SpaceText(runes[|runes| - 1])
  }

  lemma {:induction false} SpacesFromFront(runes: seq<Space>)
    requires runes != []
    ensures Spaces(runes) == SpaceText(runes[0]) + Spaces(runes[1..])
  {
    var n := |runes| - 1;
    if n > 0 {
      SpacesFromFront(runes[..n]);
      assert runes[1..][..n - 1] == runes[..n][1..];
      Associate(SpaceText(runes[0]), Spaces(runes[1..][..n - 1]), SpaceText(runes[n]));
    }
  }

  lemma SpaceTextLength(r: Space, rest: string)
    ensures SpaceLength(SpaceText(r) + rest) == |SpaceText(r)| && !IsContinuation(SpaceText(r)[0])
  {
    assert SpaceRune(r);
    var s, w := SpaceText(r) + rest, SpaceText(r);
    assert s[0] == w[0];
    assert |w| > 1 ==> s[1] == w[1];
    assert |w| > 2 ==> s[2] == w[2];
  }

  /** The rune that white space in front of a text is. */
  function RuneAt(s: string): (r: Space)
    requires SpaceLength(s) > 0
    ensures |SpaceText(r)| == SpaceLength(s) && SpaceText(r) == s[..SpaceLength(s)]
  {
    if SpaceLength(s) == 1 then s[0] as nat
    else if SpaceLength(s) == 2 then s[1] as nat
    else (s[0] as nat - 0xE0) * 4096 + (s[1] as nat - 0x80) * 64 + (s[2] as nat - 0x80)
  }

  lemma SpaceLengthIsExact(s: string)
    ensures SpaceLength(s) > 0 <==> StartsWithSpace(s)
  {
    if SpaceLength(s) > 0 {
      assert SpaceText(RuneAt(s)) <= s;
    }
    if r: Space :| SpaceText(r) <= s {
      SpaceTextLength(r, s[|SpaceText(r)|..]);
      assert s == SpaceText(r) + s[|SpaceText(r)|..];
    }
  }

  lemma SpaceTailIsSpace(s: string)
    requires SpaceTail(s) > 0
    ensures EndsWithSpace(s)
  {
    var tail := s[|s| - SpaceTail(s)..];
    assert SpaceText(RuneAt(tail)) == tail;
  }

  lemma SpaceTextIsWhole(r: Space, k: nat)
    requires 0 < k < |SpaceText(r)|
    ensures SpaceLength(SpaceText(r)[k..]) == 0
  {
    assert IsContinuation(SpaceText(r)[k]);
  }

  lemma SpaceTailOf(front: string, w: string)
    requires w != "" && SpaceLength(w) == |w| && forall k :: 0 < k < |w| ==> SpaceLength(w[k..]) == 0
    ensures SpaceTail(front + w) == |w|
  {
    var s := front + w;
    assert forall k :: 0 <= k <= |w| ==> s[|s| - |w| + k..] == w[k..];
    assert w[0..] == w;
  }

  lemma SpaceTextTail(front: string, r: Space)
    ensures SpaceTail(front + SpaceText(r)) == |SpaceText(r)|
  {
    var w := SpaceText(r);
    SpaceTextLength(r, "");
    assert w + "" == w;
    forall k | 0 < k < |w| ensures SpaceLength(w[k..]) == 0 {
      SpaceTextIsWhole(r, k);
    }
    SpaceTailOf(front, w);
  }

  // ---- trimming -------------------------------------------------------------------

  lemma SpaceIsTrimmedLeft(r: Space, s: string)
    ensures TrimLeft(SpaceText(r) + s) == TrimLeft(s)
  {
    SpaceTextLength(r, s);
  }

  lemma SpaceIsTrimmedRight(s: string, r: Space)
    ensures TrimRight(s + SpaceText(r)) == TrimRight(s)
  {
    SpaceTextTail(s, r);
    assert (s + SpaceText(r))[..|s|] == s;
  }

  lemma {:induction false} SpacesAreTrimmedLeft(runes: seq<Space>, s: string)
    ensures TrimLeft(Spaces(runes) + s) == TrimLeft(s)
  {
    if runes == [] {
      assert Spaces(runes) + s == s;
    } else {
      var n := |runes| - 1;
      Associate(Spaces(runes[..n]), SpaceText(runes[n]), s);
      SpacesAreTrimmedLeft(runes[..n], SpaceText(runes[n]) + s);
      SpaceIsTrimmedLeft(runes[n], s);
    }
  }

  lemma {:induction false} SpacesAreTrimmedRight(s: string, runes: seq<Space>)
    ensures TrimRight(s + Spaces(runes)) == TrimRight(s)
  {
    if runes == [] {
      assert s + Spaces(runes) == s;
    } else {
      var n := |runes| - 1;
      Associate(s, Spaces(runes[..n]), SpaceText(runes[n]));
      SpaceIsTrimmedRight(s + Spaces(runes[..n]), runes[n]);
      SpacesAreTrimmedRight(s, runes[..n]);
    }
  }

  /** White space starts with a byte that continues nothing. */
  lemma SpacesStart(runes: seq<Space>)
    ensures Spaces(runes) == "" || !IsContinuation(Spaces(runes)[0])
  {
    if runes != [] {
      SpacesFromFront(runes);
      SpaceTextLength(runes[0], "");
    }
  }

  /** A line as the manager should read it. */
  ghost predicate Content(c: string) {
    c != "" && LF !in c && c[0] != '#' && !StartsWithSpace(c) && !EndsWithSpace(c)
  }

  lemma TrimGivesContent(before: seq<Space>, c: string, after: seq<Space>)
    requires Content(c)
    ensures Trim(Spaces(before) + c + Spaces(after)) == c
  {
    var rest := c + Spaces(after);
    Associate(Spaces(before), c, Spaces(after));
    SpacesAreTrimmedLeft(before, rest);
    SpaceLengthIsExact(c);
    SpacesStart(after);
    SpaceLengthOfConcat(c, Spaces(after));
    assert TrimLeft(rest) == rest;
    SpacesAreTrimmedRight(c, after);
    if SpaceTail(c) > 0 {
      SpaceTailIsSpace(c);
    }
  }

  lemma TrimOfSpaces(runes: seq<Space>)
    ensures Trim(Spaces(runes)) == ""
  {
    assert Spaces(runes) + "" == Spaces(runes);
    SpacesAreTrimmedLeft(runes, "");
  }

  lemma {:induction false} HashStays(s: string)
    requires s != "" && s[0] == '#'
    ensures TrimRight(s) != "" && TrimRight(s)[0] == '#'
    decreases |s|
  {
    if SpaceTail(s) > 0 {
      assert s[0..] == s;
      HashStays(s[..|s| - SpaceTail(s)]);
    }
  }

  // ---- laid out lines ---------------------------------------------------------------

  /** A line of a feed: a node with white space around it, a comment, or white space only. */
  datatype Line =
    | NodeLine(before: seq<Space>, content: string, after: seq<Space>)
    | Comment(before: seq<Space>, text: string)
    | Empty(space: seq<Space>)

  function TextOf(l: Line): string {
    match l
    case NodeLine(before, content, after) => Spaces(before) + content + Spaces(after)
    case Comment(before, text) => Spaces(before) + (['#'] + text)
    case Empty(space) => Spaces(space)
  }

  function ContentOf(l: Line): seq<string> {
    if l.NodeLine? then [l.content] else []
  }

  ghost predicate LaidOut(l: Line) {
    LF !in TextOf(l) && (l.NodeLine? ==> Content(l.content))
  }

  function Texts(lines: seq<Line>): seq<string> {
    if lines == [] then [] else Texts(lines[..|lines| - 1]) + [TextOf(lines[|lines| - 1])]
  }

  function Contents(lines: seq<Line>): seq<string> {
    if lines == [] then [] else Contents(lines[..|lines| - 1]) + ContentOf(lines[|lines| - 1])
  }

  ghost predicate AllLaidOut(lines: seq<Line>) {
    forall i :: 0 <= i < |lines| ==> LaidOut(lines[i])
  }

  function Feed(lines: seq<Line>): string {
    Join(Texts(lines), LF)
  }

  lemma TrimOfComment(before: seq<Space>, text: string)
    ensures Trim(Spaces(before) + (['#'] + text)) != "" && Trim(Spaces(before) + (['#'] + text))[0] == '#'
  {
    var rest := ['#'] + text;
    SpacesAreTrimmedLeft(before, rest);
    assert TrimLeft(rest) == rest;
    HashStays(rest);
  }

  lemma LineIsCleaned(l: Line)
    requires LaidOut(l)
    ensures CleanLine(TextOf(l)) == ContentOf(l)
  {
    match l
    case NodeLine(before, content, after) => TrimGivesContent(before, content, after);
    case Comment(before, text) => TrimOfComment(before, text);
    case Empty(space) => TrimOfSpaces(space);
  }

  lemma {:induction false} LinesAreCleaned(lines: seq<Line>)
    requires AllLaidOut(lines)
    ensures |Texts(lines)| == |lines| && Clean(Texts(lines)) == Contents(lines)
    ensures forall t :: t in Texts(lines) ==> LF !in t
  {
    if lines != [] {
      var n := |lines| - 1;
      LinesAreCleaned(lines[..n]);
      LineIsCleaned(lines[n]);
      assert Texts(lines)[..n] == Texts(lines[..n]);
    }
  }

  lemma FeedHasItsLines(lines: seq<Line>)
    requires AllLaidOut(lines) && lines != []
    ensures PlainLines(Feed(lines)) == Contents(lines)
  {
    LinesAreCleaned(lines);
    SplitOfJoin(Texts(lines), LF);
  }

  /** Some line has the mark of a URI in it. */
  ghost predicate NamesUri(lines: seq<string>) {
    exists k, a, b :: 0 <= k < |lines| && lines[k] == a + "://" + b
  }

  lemma NamesUriIsMentionsUri(lines: seq<string>)
    ensures NamesUri(lines) <==> MentionsUri(lines)
  {
    if k, a, b :| 0 <= k < |lines| && lines[k] == a + "://" + b {
      assert ContainsAt(lines[k], SCHEME_MARK, |a|);
    }
    if k :| 0 <= k < |lines| && Contains(lines[k], SCHEME_MARK) {
      var i :| 0 <= i <= |lines[k]| && ContainsAt(lines[k], SCHEME_MARK, i);
      assert lines[k] == lines[k][..i] + "://" + lines[k][i + 3..];
    }
  }

  /** A plain feed gives exactly the lines it was put together from. */
  lemma PlainFeedReads(lines: seq<Line>)
    requires AllLaidOut(lines) && lines != [] && NamesUri(Contents(lines))
    ensures BodyLines(Feed(lines)) == Contents(lines)
  {
    NamesUriIsMentionsUri(Contents(lines));
    FeedHasItsLines(lines);
    PlainBody(Feed(lines));
  }

  // ---- compaction -------------------------------------------------------------------

  lemma CompactAfterSpace(r: Space, b: string)
    ensures Compact(SpaceText(r) + b) == Compact(b)
  {
    var s := SpaceText(r) + b;
    SpaceTextLength(r, b);
    assert s[|SpaceText(r)|..] == b;
    CompactUnfolds(s);
  }

  /** White space is dropped wherever it stands. */
  lemma CompactDropsSpace(a: string, r: Space, b: string)
    ensures Compact(a + SpaceText(r) + b) == Compact(a) + Compact(b)
  {
    SpaceTextLength(r, b);
    Associate(a, SpaceText(r), b);
    CompactOfConcat(a, SpaceText(r) + b);
    CompactAfterSpace(r, b);
  }

  /** Nothing else is dropped. */
  lemma {:induction false} CompactKeepsTheRest(s: string)
    requires forall k :: 0 <= k <= |s| ==> !StartsWithSpace(s[k..])
    ensures Compact(s) == s
  {
    if s != "" {
      assert s[0..] == s;
      SpaceLengthIsExact(s);
      assert forall k :: 0 <= k <= |s| - 1 ==> s[1..][k..] == s[k + 1..];
      CompactKeepsTheRest(s[1..]);
    }
  }

  // ---- laid out code ----------------------------------------------------------------

  /** A piece of an encoded line: white space or a letter of the code. */
  datatype Piece = Gap(space: Space) | Sign(letter: char)

  datatype CodeLine = Coded(pieces: seq<Piece>) | Remark(before: seq<Space>, text: string)

  function PieceText(p: Piece): string {
    if p.Gap? then SpaceText(p.space) else [p.letter]
  }

  function PiecesText(pieces: seq<Piece>): string {
    if pieces == [] then "" else PiecesText(pieces[..|pieces| - 1]) + PieceText(pieces[|pieces| - 1])
  }

  function Signs(pieces: seq<Piece>): string {
    if pieces == [] then ""
    else Signs(pieces[..|pieces| - 1])
         + (if pieces[|pieces| - 1].Sign? then [pieces[|pieces| - 1].letter] else "")
  }

  function CodeText(l: CodeLine): string {
    match l
    case Coded(pieces) => PiecesText(pieces)
    case Remark(before, text) => Spaces(before) + (['#'] + text)
  }

  function CodeTexts(lines: seq<CodeLine>): seq<string> {
    if lines == [] then [] else CodeTexts(lines[..|lines| - 1]) + [CodeText(lines[|lines| - 1])]
  }

  /** The letters of all lines in order. */
  function Code(lines: seq<CodeLine>): string {
    if lines == [] then ""
    else Code(lines[..|lines| - 1])
         + (if lines[|lines| - 1].Coded? then Signs(lines[|lines| - 1].pieces) else "")
  }

  predicate Visible(s: string) {
    forall c :: c in s ==> ' ' < c < 127 as char
  }

  lemma {:induction false} CompactOfPieces(pieces: seq<Piece>)
    requires Visible(Signs(pieces))
    ensures Compact(PiecesText(pieces)) == Signs(pieces)
  {
    if pieces != [] {
      var front, last := pieces[..|pieces| - 1], pieces[|pieces| - 1];
      assert forall c :: c in Signs(front) ==> c in Signs(pieces);
      CompactOfPieces(front);
      if last.Gap? {
        SpaceTextLength(last.space, "");
        CompactAfterSpace(last.space, "");
        assert SpaceText(last.space) + "" == SpaceText(last.space);
      } else {
        assert last.letter in Signs(pieces);
        assert Compact([last.letter]) == [last.letter];
      }
      CompactOfConcat(PiecesText(front), PieceText(last));
    }
  }

  lemma PayloadOfLine(l: CodeLine)
    requires l.Coded? ==> Visible(Signs(l.pieces)) && '#' !in Signs(l.pieces)
    ensures LinePayload(CodeText(l)) == if l.Coded? then Signs(l.pieces) else ""
  {
    match l
    case Coded(pieces) =>
      CompactOfPieces(pieces);
      var text := PiecesText(pieces);
      if IsComment(text) {
        CompactKeeps(Trim(text), '#');
        CompactOfTrim(text);
      }
    case Remark(before, text) => TrimOfComment(before, text);
  }

  lemma {:induction false} PayloadOfCode(lines: seq<CodeLine>)
    requires Visible(Code(lines)) && '#' !in Code(lines)
    ensures Payload(CodeTexts(lines)) == Code(lines) && |CodeTexts(lines)| == |lines|
  {
    if lines != [] {
      var front, last := lines[..|lines| - 1], lines[|lines| - 1];
      assert forall c :: c in Code(front) ==> c in Code(lines);
      assert last.Coded? ==> forall c :: c in Signs(last.pieces) ==> c in Code(lines);
      PayloadOfCode(front);
      PayloadOfLine(last);
      assert CodeTexts(lines)[..|front|] == CodeTexts(front);
    }
  }

  lemma CodeIsVisible(v: Variant, s: string)
    requires IsBytes(s)
    ensures Visible(Encode(v, s)) && '#' !in Encode(v, s)
  {
    EncodeIsCode(v, s);
    forall c | c in Encode(v, s) ensures ' ' < c < 127 as char && c != '#' {
      assert IsCode(v, c);
    }
  }

  /** An encoded feed gives the same lines, however the code is laid out. */
  lemma EncodedFeedReads(v: Variant, lines: seq<Line>, code: seq<CodeLine>)
    requires AllLaidOut(lines) && lines != [] && IsBytes(Feed(lines))
    requires code != [] && forall t :: t in CodeTexts(code) ==> LF !in t
    requires Code(code) == Encode(v, Feed(lines))
    ensures BodyLines(Join(CodeTexts(code), LF)) == Contents(lines)
  {
    CodeIsVisible(v, Feed(lines));
    PayloadOfCode(code);
    EncodedBody(v, Feed(lines), CodeTexts(code));
    FeedHasItsLines(lines);
  }

  /** What mentions no URI and is base64 in no variant is an empty feed. */
  lemma NeitherGivesNothing(lines: seq<Line>)
    requires AllLaidOut(lines) && lines != [] && !NamesUri(Contents(lines))
    requires forall v: Variant :: Decode(v, Compact(Join(Contents(lines), LF))).None?
    ensures BodyLines(Feed(lines)) == []
  {
    NamesUriIsMentionsUri(Contents(lines));
    FeedHasItsLines(lines);
    PlainBody(Feed(lines));
    FirstOfAccepts(Compact(Join(Contents(lines), LF)), 0);
  }
}
