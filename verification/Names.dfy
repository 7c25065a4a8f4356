/** Names and tags of generated outbounds. */
module Names {
  import opened NodeUri
  import Decimal

  const DASH := '-'
  const MAX_NAME := 36

  predicate Safe(c: char) {
    'A' <= c <= 'Z' || 'a' <= c <= 'z' || '0' <= c <= '9' || c == '_' || c == DASH
  }

  predicate AllSafe(s: string) {
    forall i :: 0 <= i < |s| ==> Safe(s[i])
  }

  function SkipUnsafe(s: string): (r: string)
    ensures |r| <= |s| && (s != "" && !Safe(s[0]) ==> |r| < |s|)
  {
    if s != "" && !Safe(s[0]) then SkipUnsafe(s[1..]) else s
  }

  /** Every maximal run of unsafe bytes becomes one dash. */
  function Sanitize(s: string): string
    decreases |s|
  {
    if s == "" then ""
    else if Safe(s[0]) then [s[0]] + Sanitize(s[1..])
    else [DASH] + Sanitize(SkipUnsafe(s))
  }

  function TrimDashesLeft(s: string): string {
    if s != "" && s[0] == DASH then TrimDashesLeft(s[1..]) else s
  }

  function TrimDashesRight(s: string): string {
    if s != "" && s[|s| - 1] == DASH then TrimDashesRight(s[..|s| - 1]) else s
  }

  function ShortName(raw: string): (name: string)
    ensures 0 < |name| <= MAX_NAME
  {
    var trimmed := TrimDashesRight(TrimDashesLeft(Sanitize(raw)));
    var short := if |trimmed| > MAX_NAME then trimmed[..MAX_NAME] else trimmed;
    if short == "" then "node" else short
  }

  function NodeName(raw: string, index: nat): string {
    ShortName(raw) + [DASH] + Decimal.Print(index)
  }

  /** The tag of the `index`-th line of a subscription. */
  function Tag(subscription: string, fragment: string, index: nat): (tag: string)
    ensures tag != ""
  {
    "sub-" + Sanitize(subscription) + [DASH] + NodeName(fragment, index)
  }

  // ---- fragments ------------------------------------------------------------

  function HexDigit(c: char): (v: nat)
    requires IsHex(c)
    ensures v < 16
  {
    if '0' <= c <= '9' then c as int - '0' as int
    else if 'a' <= c <= 'f' then c as int - 'a' as int + 10
    else c as int - 'A' as int + 10
  }

  function Unescape(s: string): string
    requires ValidEscapes(s)
  {
    if s == "" then ""
    else if s[0] == '%' then [(HexDigit(s[1]) * 16 + HexDigit(s[2])) as char] + Unescape(s[3..])
    else [s[0]] + Unescape(s[1..])
  }

  /** The fragment decoded once more, or as it is if that is not possible. */
  function Fragment(uri: Uri): string {
    if uri.Malformed? then ""
    else if ValidEscapes(uri.url.fragment) then Unescape(uri.url.fragment)
    else uri.url.fragment
  }

  // ---- tags determine indices -----------------------------------------------

  lemma NumeralsHaveNoDash(n: nat)
    ensures DASH !in Decimal.Print(n)
  {
    assert Decimal.AllDigits(Decimal.Print(n));
  }

  /** What follows the last dash is determined by the whole. */
  lemma SuffixIsDetermined(a: string, x: string, b: string, y: string)
    requires a + [DASH] + x == b + [DASH] + y
    requires DASH !in x && DASH !in y
    ensures x == y
  {
    var s, t := a + [DASH] + x, b + [DASH] + y;
    assert s[|a|] == DASH && t[|b|] == DASH;
    assert forall k :: |a| < k < |s| ==> s[k] == x[k - |a| - 1] && s[k] != DASH;
    assert forall k :: |b| < k < |t| ==> t[k] == y[k - |b| - 1] && t[k] != DASH;
    assert |a| == |b|;
    assert x == s[|a| + 1..] && y == t[|b| + 1..];
  }

  /** Whatever sanitising and truncation do to the names, equal tags mean equal indices. */
  lemma TagDeterminesIndex(s1: string, f1: string, i: nat, s2: string, f2: string, j: nat)
    requires Tag(s1, f1, i) == Tag(s2, f2, j)
    ensures i == j
  {
    var a := "sub-" + Sanitize(s1) + [DASH] + ShortName(f1);
    var b := "sub-" + Sanitize(s2) + [DASH] + ShortName(f2);
    assert Tag(s1, f1, i) == a + [DASH] + Decimal.Print(i);
    assert Tag(s2, f2, j) == b + [DASH] + Decimal.Print(j);
    NumeralsHaveNoDash(i);
    NumeralsHaveNoDash(j);
    SuffixIsDetermined(a, Decimal.Print(i), b, Decimal.Print(j));
    Decimal.PrintIsInjective(i, j);
  }

  lemma ShortNameStays(s: string)
    requires AllSafe(s) && 0 < |s| <= MAX_NAME && s[0] != DASH && s[|s| - 1] != DASH
    ensures ShortName(s) == s
  {
    AlreadySafe(s);
    assert TrimDashesLeft(s) == s && TrimDashesRight(s) == s;
  }

  lemma Regroup(prefix: string, name: string, short: string, number: string)
    ensures prefix + name + [DASH] + (short + [DASH] + number) == prefix + (name + [DASH] + short) + ([DASH] + number)
  {
  }

  /** Nothing beyond the index is determined: two differently named subscriptions can collide. */
  lemma DifferentSubscriptionsCanCollide()
    ensures Tag("a", "b-c", 1) == Tag("a-b", "c", 1) && Sanitize("a") != Sanitize("a-b")
  {
    AlreadySafe("a");
    AlreadySafe("a-b");
    ShortNameStays("b-c");
    ShortNameStays("c");
    Regroup("sub-", "a", "b-c", Decimal.Print(1));
    Regroup("sub-", "a-b", "c", Decimal.Print(1));
    assert "a" + [DASH] + "b-c" == "a-b" + [DASH] + "c";
  }

  lemma {:induction false} AlreadySafe(s: string)
    requires AllSafe(s)
    ensures Sanitize(s) == s
  {
    if s != "" {
      AlreadySafe(s[1..]);
    }
  }

  /** Tags consist of safe bytes only, whatever the feed says. */
  lemma TagIsSafe(subscription: string, fragment: string, index: nat)
    ensures AllSafe(Tag(subscription, fragment, index))
  {
    SanitizeIsSafe(subscription);
    SanitizeIsSafe(fragment);
    TrimLeftIsSafe(Sanitize(fragment));
    TrimRightIsSafe(TrimDashesLeft(Sanitize(fragment)));
    assert AllSafe("sub-") && AllSafe("node") && AllSafe([DASH]) && AllSafe(Decimal.Print(index));
    assert AllSafe(ShortName(fragment));
    assert AllSafe(NodeName(fragment, index));
  }

  lemma {:induction false} SanitizeIsSafe(s: string)
    ensures AllSafe(Sanitize(s))
    decreases |s|
  {
    if s != "" {
      SanitizeIsSafe(if Safe(s[0]) then s[1..] else SkipUnsafe(s));
    }
  }

  lemma {:induction false} TrimLeftIsSafe(s: string)
    requires AllSafe(s)
    ensures AllSafe(TrimDashesLeft(s))
  {
    if s != "" && s[0] == DASH {
      TrimLeftIsSafe(s[1..]);
    }
  }

  lemma {:induction false} TrimRightIsSafe(s: string)
    requires AllSafe(s)
    ensures AllSafe(TrimDashesRight(s))
  {
    if s != "" && s[|s| - 1] == DASH {
      TrimRightIsSafe(s[..|s| - 1]);
    }
  }
}
