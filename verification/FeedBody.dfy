/** Subscription bodies: plain lists of node URIs, or the same text in base64. */
module FeedBody {
  import opened Wrappers
  import opened Text
  import opened Base64

  const LF := '\n'
  const SCHEME_MARK := "://"

  /** Blank lines and comments are metadata. */
  predicate Kept(line: string) {
    Trim(line) != "" && !HasPrefix(Trim(line), '#')
  }

  predicate IsComment(line: string) {
    HasPrefix(Trim(line), '#')
  }

  function CleanLine(line: string): seq<string> {
    if Kept(line) then [Trim(line)] else []
  }

  function Clean(lines: seq<string>): seq<string> {
    if lines == [] then [] else Clean(lines[..|lines| - 1]) + CleanLine(lines[|lines| - 1])
  }

  /** The node lines of a plain text. */
  function PlainLines(text: string): seq<string> {
    Clean(Split(text, LF))
  }

  predicate MentionsUri(lines: seq<string>) {
    exists k :: 0 <= k < |lines| && Contains(lines[k], SCHEME_MARK)
  }

  /** What the manager reads from a body. */
  function BodyLines(body: string): seq<string> {
    var found := PlainLines(body);
    var text := Join(found, LF);
    if Contains(text, SCHEME_MARK) then found
    else match DecodeAny(Compact(text))
      case None => []
      case Some(decoded) => PlainLines(decoded)
  }

  method CleanLines(text: string) returns (found: seq<string>)
    ensures found == PlainLines(text)
  {
    found := [];
    var lines := Split(text, LF);
    for i := 0 to |lines|
      invariant found == Clean(lines[..i])
    {
      assert lines[..i + 1][..i] == lines[..i];
      var line := Trim(lines[i]);
      if line != "" && !HasPrefix(line, '#') {
        found := found + [line];
      }
    }
    assert lines[..|lines|] == lines;
  }

  method DecodeBody(body: string) returns (lines: seq<string>)
    ensures lines == BodyLines(body)
  {
    var found := CleanLines(body);
    var text := Join(found, LF);
    if Contains(text, SCHEME_MARK) {
      return found;
    }
    var decoded := DecodeBase64(Compact(text));
    if decoded.None? {
      return [];
    }
    lines := CleanLines(decoded.value);
  }

  // ---- plain bodies ---------------------------------------------------------

  /** A body is taken as plain text exactly when a line that is no comment mentions a URI. */
  lemma PlainBody(body: string)
    ensures MentionsUri(PlainLines(body)) <==> Contains(Join(PlainLines(body), LF), SCHEME_MARK)
    ensures MentionsUri(PlainLines(body)) ==> BodyLines(body) == PlainLines(body)
  {
    ContainsInJoin(PlainLines(body), LF, SCHEME_MARK);
  }

  // ---- encoded bodies -------------------------------------------------------

  /** The letters of a body: everything outside comment lines, white space removed. */
  function Payload(lines: seq<string>): string {
    if lines == [] then "" else Payload(lines[..|lines| - 1]) + LinePayload(lines[|lines| - 1])
  }

  function LinePayload(line: string): string {
    if IsComment(line) then "" else Compact(line)
  }

  function Flatten(parts: seq<string>): string {
    if parts == [] then "" else Flatten(parts[..|parts| - 1]) + Compact(parts[|parts| - 1])
  }

  lemma CompactOfBreak(rest: string)
    ensures Compact([LF] + rest) == Compact(rest)
  {
    assert Rest([LF] + rest) == rest && Head([LF] + rest) == "";
  }

  lemma CompactOfLine(line: string, rest: string)
    ensures Compact(line + [LF] + rest) == Compact(line) + Compact(rest)
  {
    CompactOfConcat(line, [LF] + rest);
    CompactOfBreak(rest);
    assert line + [LF] + rest == line + ([LF] + rest);
  }

  lemma {:induction false} FlattenOfCons(first: string, rest: seq<string>)
    ensures Flatten([first] + rest) == Compact(first) + Flatten(rest)
  {
    var parts := [first] + rest;
    if rest == [] {
      assert parts[..0] == [] && parts[0] == first;
    } else {
      var n := |rest| - 1;
      FlattenOfCons(first, rest[..n]);
      assert parts[..n + 1] == [first] + rest[..n] && parts[n + 1] == rest[n];
      Associate(Compact(first), Flatten(rest[..n]), Compact(rest[n]));
    }
  }

  lemma {:induction false} CompactOfJoin(parts: seq<string>)
    ensures Compact(Join(parts, LF)) == Flatten(parts)
  {
    if |parts| > 0 {
      FlattenOfCons(parts[0], parts[1..]);
      assert parts == [parts[0]] + parts[1..];
      CompactOfJoin(parts[1..]);
      if |parts| > 1 {
        CompactOfLine(parts[0], Join(parts[1..], LF));
      }
    }
  }

  lemma {:induction false} FlattenOfClean(lines: seq<string>)
    ensures Flatten(Clean(lines)) == Payload(lines)
  {
    if lines != [] {
      var front, last := lines[..|lines| - 1], lines[|lines| - 1];
      FlattenOfClean(front);
      CompactOfTrim(last);
      if Kept(last) {
        assert Clean(lines)[..|Clean(front)|] == Clean(front);
      } else {
        assert Clean(lines) == Clean(front);
        assert LinePayload(last) == "";
      }
    }
  }

  lemma NoUriInCode(v: Variant, text: string)
    requires forall i :: 0 <= i < |Compact(text)| ==> IsCode(v, Compact(text)[i])
    ensures !Contains(text, SCHEME_MARK)
  {
    if i :| 0 <= i <= |text| && ContainsAt(text, SCHEME_MARK, i) {
      assert text[i + 0] == SCHEME_MARK[0];
      CompactKeeps(text, ':');
      assert !IsCode(v, ':');
    }
  }

  /**
   However a base64 text is broken into lines, indented, spaced out with any white space and
   interleaved with comments, the manager reads the lines of the text that was encoded.
   */
  lemma EncodedBody(v: Variant, plain: string, lines: seq<string>)
    requires IsBytes(plain)
    requires lines != [] && forall l :: l in lines ==> LF !in l
    requires Payload(lines) == Encode(v, plain)
    ensures BodyLines(Join(lines, LF)) == PlainLines(plain)
  {
    var found := Clean(lines);
    SplitOfJoin(lines, LF);
    CompactOfJoin(found);
    FlattenOfClean(lines);
    EncodeIsCode(v, plain);
    NoUriInCode(v, Join(found, LF));
    DecodeAnyOfEncode(v, plain);
  }

  /** Encoding a feed that mentions a URI changes nothing for the reader. */
  lemma EncodingIsTransparent(v: Variant, plain: string, lines: seq<string>)
    requires IsBytes(plain) && MentionsUri(PlainLines(plain))
    requires lines != [] && forall l :: l in lines ==> LF !in l
    requires Payload(lines) == Encode(v, plain)
    ensures BodyLines(Join(lines, LF)) == BodyLines(plain)
  {
    EncodedBody(v, plain, lines);
    PlainBody(plain);
  }
}
