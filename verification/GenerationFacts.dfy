/** What holds of every generated config. */
module GenerationFacts {
  import opened Wrappers
  import opened Json
  import opened NodeUri
  import opened Names
  import opened Generation

  // ---- first occurrences ----------------------------------------------------

  predicate IsFirst(nodes: seq<Node>, i: nat)
    requires i < |nodes|
  {
    nodes[i] !in nodes[..i]
  }

  predicate Increasing(ps: seq<nat>) {
    forall j, k :: 0 <= j < k < |ps| ==> ps[j] < ps[k]
  }

  /** Kept positions are exactly the first occurrences, in order. */
  lemma {:induction false} FirstsAreFirst(nodes: seq<Node>)
    ensures Increasing(Firsts(nodes))
    ensures forall i :: 0 <= i < |nodes| ==> (i in Firsts(nodes) <==> IsFirst(nodes, i))
  {
    if nodes != [] {
      var n := |nodes| - 1;
      var front := nodes[..n];
      FirstsAreFirst(front);
      var ps, all := Firsts(front), Firsts(nodes);
      assert all == ps + if nodes[n] in front then [] else [n];
      assert forall k :: 0 <= k < |ps| ==> all[k] == ps[k];
      forall i | 0 <= i < n ensures i in all <==> IsFirst(nodes, i) {
        assert nodes[..i] == front[..i] && nodes[i] == front[i];
        assert i in ps <==> IsFirst(front, i);
      }
    }
  }

  function Distinct(nodes: seq<Node>): set<Node> {
    set n | n in nodes
  }

  lemma {:induction false} FirstsCountDistinct(nodes: seq<Node>)
    ensures |Firsts(nodes)| == |Distinct(nodes)|
  {
    if nodes == [] {
      assert Distinct(nodes) == {};
    } else {
      var n := |nodes| - 1;
      var front := nodes[..n];
      FirstsCountDistinct(front);
      assert nodes == front + [nodes[n]];
      assert Distinct(nodes) == Distinct(front) + {nodes[n]};
      if nodes[n] in front {
        assert Distinct(nodes) == Distinct(front);
      }
    }
  }

  /** No two kept entries carry the same node, and every parsed node is kept once. */
  lemma KeptIsDistinct(entries: seq<Entry>)
    ensures var kept := Kept(entries);
            && (forall j, k :: 0 <= j < k < |kept| ==> kept[j].node != kept[k].node)
            && (forall e :: e in entries ==> exists k :: 0 <= k < |kept| && kept[k].node == e.node)
            && |kept| == |Distinct(Nodes(entries))|
  {
    var nodes, kept := Nodes(entries), Kept(entries);
    var ps := Firsts(nodes);
    FirstsAreFirst(nodes);
    FirstsCountDistinct(nodes);
    forall j, k | 0 <= j < k < |kept| ensures kept[j].node != kept[k].node {
      assert ps[k] in ps && IsFirst(nodes, ps[k]);
      assert nodes[..ps[k]][ps[j]] == nodes[ps[j]];
    }
    forall e | e in entries ensures exists k :: 0 <= k < |kept| && kept[k].node == e.node {
      var i :| 0 <= i < |entries| && entries[i] == e;
      var f := FirstSuch(nodes, i);
      assert f in ps;
      var k :| 0 <= k < |ps| && ps[k] == f;
      assert kept[k].node == e.node;
    }
  }

  lemma {:induction false} FirstSuch(nodes: seq<Node>, i: nat) returns (f: nat)
    requires i < |nodes|
    ensures f <= i && nodes[f] == nodes[i] && IsFirst(nodes, f)
  {
    if IsFirst(nodes, i) {
      f := i;
    } else {
      var j :| 0 <= j < i && nodes[..i][j] == nodes[i];
      f := FirstSuch(nodes, j);
    }
  }

  // ---- counting -------------------------------------------------------------

  lemma {:induction false} LinesAreEntriesOrWarnings(w: World, provider: nat, name: string, lines: seq<string>)
    ensures |Entries(w, provider, name, lines)| + |Warnings(w, provider, lines)| == |lines|
  {
    if lines != [] {
      LinesAreEntriesOrWarnings(w, provider, name, lines[..|lines| - 1]);
    }
  }

  /** Every input line is either parsed or skipped, and counted once. */
  lemma {:induction false} EveryLineCounts(w: World, subs: seq<Subscription>)
    ensures |AllEntries(w, subs)| + |AllWarnings(w, subs)| == LineCount(w, subs)
  {
    if subs != [] {
      var last := subs[|subs| - 1];
      EveryLineCounts(w, subs[..|subs| - 1]);
      LinesAreEntriesOrWarnings(w, |subs|, last.name, w.Lines(last));
    }
  }

  /** What a success reports. */
  lemma ReportIsExact(base: Object, subs: seq<Subscription>, w: World)
    requires Buildable(base, subs, w)
    ensures var built := Generated(base, subs, w);
            && |AllEntries(w, subs)| + built.skipped == LineCount(w, subs)
            && |built.warnings| == (if built.skipped < 20 then built.skipped else 20)
            && built.warnings <= AllWarnings(w, subs)
            && built.nodes == |Distinct(Nodes(AllEntries(w, subs)))|
            && (built.nodes == 0 <==> subs == [])
  {
    EveryLineCounts(w, subs);
    var entries := AllEntries(w, subs);
    KeptIsDistinct(entries);
    if subs != [] {
      assert ProviderOk(w, |subs| - 1 + 1, subs[|subs| - 1]);
      assert entries[|entries| - 1] in entries;
    }
  }

  // ---- the config -----------------------------------------------------------

  lemma TagOfItem(tag: string, node: Node)
    ensures TagOf(Obj(Item(tag, node))) == tag
  {
  }

  lemma TagSurvives(outbound: Value, tags: seq<string>)
    ensures TagOf(WithGenerated(outbound, tags)) == TagOf(outbound)
  {
    assert |"tag"| != |"outbounds"|;
  }

  /** What an entry says of the line it comes from: that it parses to the node and gives the tag. */
  predicate Reads(e: Entry, w: World, provider: nat, name: string, raw: string) {
    && e.provider == provider
    && Parse(w.Split(raw)) == Ok(e.node)
    && e.tag == Tag(name, Fragment(w.Split(raw)), e.index)
  }

  predicate OfLines(e: Entry, w: World, provider: nat, name: string, lines: seq<string>) {
    1 <= e.index <= |lines| && Reads(e, w, provider, name, lines[e.index - 1])
  }

  predicate Refuses(x: Warning, w: World, provider: nat, raw: string) {
    x.provider == provider && Parse(w.Split(raw)) == Err(x.error)
  }

  predicate WarnsOf(x: Warning, w: World, provider: nat, lines: seq<string>) {
    1 <= x.index <= |lines| && Refuses(x, w, provider, lines[x.index - 1])
  }

  lemma EntryOfOneLine(e: Entry, w: World, provider: nat, name: string, raw: string, index: nat)
    ensures e in LineEntry(w, provider, name, raw, index) <==> e.index == index && Reads(e, w, provider, name, raw)
  {
  }

  lemma {:induction false} EntryOfLines(e: Entry, w: World, provider: nat, name: string, lines: seq<string>, n: nat)
    requires n <= |lines|
    ensures e in Entries(w, provider, name, lines[..n]) <==> e.index <= n && OfLines(e, w, provider, name, lines)
  {
    if n > 0 {
      assert lines[..n][..n - 1] == lines[..n - 1];
      EntryOfLines(e, w, provider, name, lines, n - 1);
      EntryOfOneLine(e, w, provider, name, lines[n - 1], n);
    }
  }

  lemma {:induction false} WarningOfLines(x: Warning, w: World, provider: nat, lines: seq<string>, n: nat)
    requires n <= |lines|
    ensures x in Warnings(w, provider, lines[..n]) <==> x.index <= n && WarnsOf(x, w, provider, lines)
  {
    if n > 0 {
      assert lines[..n][..n - 1] == lines[..n - 1];
      WarningOfLines(x, w, provider, lines, n - 1);
    }
  }

  lemma EntryIsOfLines(e: Entry, w: World, provider: nat, name: string, lines: seq<string>)
    ensures e in Entries(w, provider, name, lines) <==> OfLines(e, w, provider, name, lines)
  {
    EntryOfLines(e, w, provider, name, lines, |lines|);
    assert lines[..|lines|] == lines;
  }

  lemma WarningIsOfLines(x: Warning, w: World, provider: nat, lines: seq<string>)
    ensures x in Warnings(w, provider, lines) <==> WarnsOf(x, w, provider, lines)
  {
    WarningOfLines(x, w, provider, lines, |lines|);
    assert lines[..|lines|] == lines;
  }

  lemma EntriesOfLines(w: World, provider: nat, name: string, lines: seq<string>)
    ensures forall e :: e in Entries(w, provider, name, lines) <==> OfLines(e, w, provider, name, lines)
    ensures forall x :: x in Warnings(w, provider, lines) <==> WarnsOf(x, w, provider, lines)
  {
    forall e ensures e in Entries(w, provider, name, lines) <==> OfLines(e, w, provider, name, lines) {
      EntryIsOfLines(e, w, provider, name, lines);
    }
    forall x ensures x in Warnings(w, provider, lines) <==> WarnsOf(x, w, provider, lines) {
      WarningIsOfLines(x, w, provider, lines);
    }
  }

  /** A line of some provider that parses, with its node and its tag. */
  predicate IsEntry(e: Entry, w: World, subs: seq<Subscription>) {
    && 1 <= e.provider <= |subs|
    && OfLines(e, w, e.provider, subs[e.provider - 1].name, w.Lines(subs[e.provider - 1]))
  }

  /** A line of some provider that does not parse, with the reason. */
  predicate IsWarning(x: Warning, w: World, subs: seq<Subscription>) {
    1 <= x.provider <= |subs| && WarnsOf(x, w, x.provider, w.Lines(subs[x.provider - 1]))
  }

  function EntriesOf(w: World, subs: seq<Subscription>, provider: nat): seq<Entry>
    requires 1 <= provider <= |subs|
  {
    Entries(w, provider, subs[provider - 1].name, w.Lines(subs[provider - 1]))
  }

  function WarningsOf(w: World, subs: seq<Subscription>, provider: nat): seq<Warning>
    requires 1 <= provider <= |subs|
  {
    Warnings(w, provider, w.Lines(subs[provider - 1]))
  }

  lemma {:induction false} ProviderOfLines(w: World, provider: nat, name: string, lines: seq<string>)
    ensures forall e :: e in Entries(w, provider, name, lines) ==> e.provider == provider
    ensures forall x :: x in Warnings(w, provider, lines) ==> x.provider == provider
  {
    if lines != [] {
      ProviderOfLines(w, provider, name, lines[..|lines| - 1]);
    }
  }

  lemma {:induction false} EntriesOfProviders(w: World, subs: seq<Subscription>, n: nat)
    requires n <= |subs|
    ensures forall e :: e in AllEntries(w, subs[..n]) <==> 1 <= e.provider <= n && e in EntriesOf(w, subs, e.provider)
    ensures forall x :: x in AllWarnings(w, subs[..n]) <==> 1 <= x.provider <= n && x in WarningsOf(w, subs, x.provider)
  {
    if n > 0 {
      assert subs[..n][..n - 1] == subs[..n - 1];
      EntriesOfProviders(w, subs, n - 1);
      ProviderOfLines(w, n, subs[n - 1].name, w.Lines(subs[n - 1]));
      assert AllEntries(w, subs[..n]) == AllEntries(w, subs[..n - 1]) + EntriesOf(w, subs, n);
      assert AllWarnings(w, subs[..n]) == AllWarnings(w, subs[..n - 1]) + WarningsOf(w, subs, n);
    }
  }

  lemma EntryFromLine(e: Entry, w: World, subs: seq<Subscription>, sub: Subscription, lines: seq<string>)
    requires 1 <= e.provider <= |subs| && sub == subs[e.provider - 1] && lines == w.Lines(sub)
    requires OfLines(e, w, e.provider, sub.name, lines)
    ensures IsEntry(e, w, subs)
  {
  }

  lemma LineOfEntry(e: Entry, w: World, subs: seq<Subscription>, sub: Subscription, lines: seq<string>)
    requires IsEntry(e, w, subs) && sub == subs[e.provider - 1] && lines == w.Lines(sub)
    ensures OfLines(e, w, e.provider, sub.name, lines)
  {
  }

  lemma WarningFromLine(x: Warning, w: World, subs: seq<Subscription>, lines: seq<string>)
    requires 1 <= x.provider <= |subs| && lines == w.Lines(subs[x.provider - 1])
    requires WarnsOf(x, w, x.provider, lines)
    ensures IsWarning(x, w, subs)
  {
  }

  lemma LineOfWarning(x: Warning, w: World, subs: seq<Subscription>, lines: seq<string>)
    requires IsWarning(x, w, subs) && lines == w.Lines(subs[x.provider - 1])
    ensures WarnsOf(x, w, x.provider, lines)
  {
  }

  /** Whether an entry is listed is passed on as a truth value, to keep the lists themselves out. */
  lemma EntryIsLine(e: Entry, w: World, subs: seq<Subscription>, sub: Subscription, lines: seq<string>, listed: bool)
    requires 1 <= e.provider <= |subs| && sub == subs[e.provider - 1] && lines == w.Lines(sub)
    requires listed <==> e in Entries(w, e.provider, sub.name, lines)
    ensures listed <==> IsEntry(e, w, subs)
  {
    EntryIsOfLines(e, w, e.provider, sub.name, lines);
    if listed {
      EntryFromLine(e, w, subs, sub, lines);
    } else if IsEntry(e, w, subs) {
      LineOfEntry(e, w, subs, sub, lines);
    }
  }

  lemma WarningIsLine(x: Warning, w: World, subs: seq<Subscription>, lines: seq<string>, listed: bool)
    requires 1 <= x.provider <= |subs| && lines == w.Lines(subs[x.provider - 1])
    requires listed <==> x in Warnings(w, x.provider, lines)
    ensures listed <==> IsWarning(x, w, subs)
  {
    WarningIsOfLines(x, w, x.provider, lines);
    if listed {
      WarningFromLine(x, w, subs, lines);
    } else if IsWarning(x, w, subs) {
      LineOfWarning(x, w, subs, lines);
    }
  }

  lemma EntryHasProvider(e: Entry, w: World, subs: seq<Subscription>)
    ensures e in AllEntries(w, subs) <==> 1 <= e.provider <= |subs| && e in EntriesOf(w, subs, e.provider)
  {
    assert subs[..|subs|] == subs;
    EntriesOfProviders(w, subs, |subs|);
  }

  lemma WarningHasProvider(x: Warning, w: World, subs: seq<Subscription>)
    ensures x in AllWarnings(w, subs) <==> 1 <= x.provider <= |subs| && x in WarningsOf(w, subs, x.provider)
  {
    assert subs[..|subs|] == subs;
    EntriesOfProviders(w, subs, |subs|);
  }

  lemma AnyEntryIsLine(e: Entry, w: World, subs: seq<Subscription>, listed: bool)
    requires listed <==> 1 <= e.provider <= |subs| && e in EntriesOf(w, subs, e.provider)
    ensures listed <==> IsEntry(e, w, subs)
  {
    if 1 <= e.provider <= |subs| {
      var sub := subs[e.provider - 1];
      EntryIsLine(e, w, subs, sub, w.Lines(sub), listed);
    }
  }

  lemma AnyWarningIsLine(x: Warning, w: World, subs: seq<Subscription>, listed: bool)
    requires listed <==> 1 <= x.provider <= |subs| && x in WarningsOf(w, subs, x.provider)
    ensures listed <==> IsWarning(x, w, subs)
  {
    if 1 <= x.provider <= |subs| {
      WarningIsLine(x, w, subs, w.Lines(subs[x.provider - 1]), listed);
    }
  }

  /** The entries are exactly the lines that parse, the warnings exactly those that do not. */
  lemma EntriesAreTheLines(w: World, subs: seq<Subscription>)
    ensures forall e :: e in AllEntries(w, subs) <==> IsEntry(e, w, subs)
    ensures forall x :: x in AllWarnings(w, subs) <==> IsWarning(x, w, subs)
  {
    forall e ensures e in AllEntries(w, subs) <==> IsEntry(e, w, subs) {
      EntryHasProvider(e, w, subs);
      AnyEntryIsLine(e, w, subs, e in AllEntries(w, subs));
    }
    forall x ensures x in AllWarnings(w, subs) <==> IsWarning(x, w, subs) {
      WarningHasProvider(x, w, subs);
      AnyWarningIsLine(x, w, subs, x in AllWarnings(w, subs));
    }
  }

  /** What the tag checks promise about a list of entries. */
  predicate TagsFresh(values: seq<Value>, kept: seq<Entry>) {
    && (forall k :: 0 <= k < |kept| ==> kept[k].tag != "" && kept[k].tag !in BaseTags(values))
    && (forall j, k :: 0 <= j < k < |kept| ==> kept[j].tag != kept[k].tag)
  }

  lemma KeptTagsAreFresh(values: seq<Value>, entries: seq<Entry>)
    requires TagsOk(values, entries) && forall e :: e in entries ==> e.tag != ""
    ensures TagsFresh(values, Kept(entries))
  {
    FirstsAreFirst(Nodes(entries));
    var kept, ps := Kept(entries), Firsts(Nodes(entries));
    forall j, k | 0 <= j < k < |kept| ensures kept[j].tag != kept[k].tag {
      assert ps[j] < ps[k];
      assert kept[j] == entries[ps[j]] && kept[k] == entries[ps[k]];
    }
  }

  lemma LineTagsAreNonEmpty(w: World, subs: seq<Subscription>)
    ensures forall e :: e in AllEntries(w, subs) ==> e.tag != ""
  {
    EntriesAreTheLines(w, subs);
  }

  lemma OutboundsOfConfig(base: Object, kept: seq<Entry>)
    ensures Outbounds(Config(base, kept)) == OutboundsAfter(Outbounds(base), kept)
    ensures Config(base, kept) - {"outbounds"} == base - {"outbounds"}
  {
  }

  lemma OutboundAt(values: seq<Value>, kept: seq<Entry>, i: nat)
    requires i < |values| + |kept|
    ensures OutboundsAfter(values, kept)[i] ==
              if i < |values| then WithGenerated(values[i], Tags(kept)) else Items(kept)[i - |values|]
  {
  }

  lemma TagsAfter(values: seq<Value>, kept: seq<Entry>, i: nat)
    requires i < |values| + |kept|
    ensures TagOf(OutboundsAfter(values, kept)[i]) == if i < |values| then TagOf(values[i]) else kept[i - |values|].tag
  {
    OutboundAt(values, kept, i);
    if i < |values| {
      TagSurvives(values[i], Tags(kept));
    } else {
      TagOfItem(kept[i - |values|].tag, kept[i - |values|].node);
    }
  }

  lemma FreshTagsKeepDistinct(values: seq<Value>, kept: seq<Entry>)
    requires NonEmptyTagsDiffer(values) && TagsFresh(values, kept)
    ensures NonEmptyTagsDiffer(OutboundsAfter(values, kept))
    ensures forall k :: |values| <= k < |values| + |kept| ==> TagOf(OutboundsAfter(values, kept)[k]) != ""
  {
    var out := OutboundsAfter(values, kept);
    forall k | |values| <= k < |out| ensures TagOf(out[k]) != "" {
      TagsAfter(values, kept, k);
    }
    forall i, j | 0 <= i < j < |out| && TagOf(out[i]) != "" ensures TagOf(out[i]) != TagOf(out[j]) {
      TagsAfter(values, kept, i);
      TagsAfter(values, kept, j);
      if i < |values| {
        assert TagOf(out[i]) in BaseTags(values);
      }
    }
  }

  /** In every generated config the nonempty tags are pairwise distinct, and every generated outbound has one. */
  lemma TagsAreDistinct(base: Object, subs: seq<Subscription>, w: World)
    requires Buildable(base, subs, w)
    ensures var out := Outbounds(Generated(base, subs, w).config);
            && NonEmptyTagsDiffer(out)
            && forall k :: |Outbounds(base)| <= k < |out| ==> TagOf(out[k]) != ""
  {
    LineTagsAreNonEmpty(w, subs);
    KeptTagsAreFresh(Outbounds(base), AllEntries(w, subs));
    FreshTagsKeepDistinct(Outbounds(base), Kept(AllEntries(w, subs)));
    OutboundsOfConfig(base, Kept(AllEntries(w, subs)));
  }

  /** A reference resolves to an outbound that carries its tag; the empty tag refers to none. */
  predicate Resolves(config: Object, reference: Value) {
    reference != Str("") && exists i :: 0 <= i < |Outbounds(config)| && reference == Str(TagOf(Outbounds(config)[i]))
  }

  lemma KeptTagsAreNonEmpty(w: World, subs: seq<Subscription>)
    ensures forall k :: 0 <= k < |Kept(AllEntries(w, subs))| ==> Kept(AllEntries(w, subs))[k].tag != ""
  {
    LineTagsAreNonEmpty(w, subs);
    var entries := AllEntries(w, subs);
    forall k | 0 <= k < |Kept(entries)| ensures Kept(entries)[k].tag != "" {
      assert Kept(entries)[k] == entries[Firsts(Nodes(entries))[k]];
    }
  }

  lemma BaseReferencesStillResolve(base: Object, kept: seq<Entry>, reference: Value)
    requires Resolves(base, reference)
    ensures Resolves(Config(base, kept), reference)
  {
    var i :| 0 <= i < |Outbounds(base)| && reference == Str(TagOf(Outbounds(base)[i]));
    OutboundsOfConfig(base, kept);
    TagsAfter(Outbounds(base), kept, i);
    assert reference == Str(TagOf(Outbounds(Config(base, kept))[i]));
  }

  lemma GeneratedReferencesResolve(base: Object, subs: seq<Subscription>, w: World, k: nat)
    requires k < |Kept(AllEntries(w, subs))|
    ensures Resolves(Generated(base, subs, w).config, Str(Kept(AllEntries(w, subs))[k].tag))
  {
    KeptTagsAreNonEmpty(w, subs);
    KeptReferenceResolves(base, Kept(AllEntries(w, subs)), k);
  }

  lemma KeptReferenceResolves(base: Object, kept: seq<Entry>, k: nat)
    requires k < |kept| && kept[k].tag != ""
    ensures Resolves(Config(base, kept), Str(kept[k].tag))
  {
    var i := |Outbounds(base)| + k;
    OutboundsOfConfig(base, kept);
    TagsAfter(Outbounds(base), kept, i);
    assert Str(kept[k].tag) == Str(TagOf(Outbounds(Config(base, kept))[i]));
  }

  lemma ReferencesResolve(base: Object, kept: seq<Entry>, i: nat)
    requires i < |Outbounds(base)| && forall k :: 0 <= k < |kept| ==> kept[k].tag != ""
    requires forall r :: r in References(Outbounds(base)[i]) ==> Resolves(base, r)
    ensures i < |Outbounds(Config(base, kept))|
    ensures forall r :: r in References(Outbounds(Config(base, kept))[i]) ==> Resolves(Config(base, kept), r)
  {
    var tags := Tags(kept);
    var before, after := Outbounds(base)[i], Outbounds(Config(base, kept))[i];
    OutboundsOfConfig(base, kept);
    OutboundAt(Outbounds(base), kept, i);
    assert after == WithGenerated(before, tags);
    forall r | r in References(after) ensures Resolves(Config(base, kept), r) {
      if r in References(before) {
        BaseReferencesStillResolve(base, kept, r);
      } else {
        assert r in Strings(tags);
        var k :| 0 <= k < |tags| && Strings(tags)[k] == r;
        KeptReferenceResolves(base, kept, k);
      }
    }
  }

  /** A selector that only named existing outbounds before still does, generated ones included. */
  lemma SelectorsResolve(base: Object, subs: seq<Subscription>, w: World, i: nat)
    requires i < |Outbounds(base)|
    requires forall r :: r in References(Outbounds(base)[i]) ==> Resolves(base, r)
    ensures var config := Generated(base, subs, w).config;
            i < |Outbounds(config)| && forall r :: r in References(Outbounds(config)[i]) ==> Resolves(config, r)
  {
    KeptTagsAreNonEmpty(w, subs);
    ReferencesResolve(base, Kept(AllEntries(w, subs)), i);
  }

  /** All that generation may change in an outbound of the base. */
  predicate OnlyPrepended(before: Value, after: Value, tags: seq<string>) {
    if before.Obj? && (TagOf(before) == "telegram-auto" || TagOf(before) == "default-auto") then
      && after.Obj?
      && after.fields - {"outbounds"} == before.fields - {"outbounds"}
      && References(after) == Strings(tags) + References(before)
    else after == before
  }

  lemma PrependsOnly(before: Value, tags: seq<string>)
    ensures OnlyPrepended(before, WithGenerated(before, tags), tags)
  {
  }

  predicate OutboundsExtended(before: seq<Value>, after: seq<Value>, kept: seq<Entry>) {
    && |after| == |before| + |kept|
    && (forall i :: 0 <= i < |before| ==> OnlyPrepended(before[i], after[i], Tags(kept)))
    && (forall i :: |before| <= i < |after| ==> after[i] == Obj(Item(kept[i - |before|].tag, kept[i - |before|].node)))
  }

  lemma OutboundsAreExtended(before: seq<Value>, kept: seq<Entry>)
    ensures OutboundsExtended(before, OutboundsAfter(before, kept), kept)
  {
    var after := OutboundsAfter(before, kept);
    forall i | 0 <= i < |before| ensures OnlyPrepended(before[i], after[i], Tags(kept)) {
      OutboundAt(before, kept, i);
      PrependsOnly(before[i], Tags(kept));
    }
    forall i | |before| <= i < |after| ensures after[i] == Obj(Item(kept[i - |before|].tag, kept[i - |before|].node)) {
      OutboundAt(before, kept, i);
    }
  }

  /** What generation adds, and all that it changes. */
  lemma ConfigFrame(base: Object, kept: seq<Entry>)
    ensures Config(base, kept) - {"outbounds"} == base - {"outbounds"}
    ensures OutboundsExtended(Outbounds(base), Outbounds(Config(base, kept)), kept)
  {
    OutboundsOfConfig(base, kept);
    OutboundsAreExtended(Outbounds(base), kept);
  }

  // ---- where a collision can come from ---------------------------------------

  /** Two lines of one provider never share a tag, nor do two lines with different numbers. */
  lemma CollisionNeedsEqualIndex(w: World, subs: seq<Subscription>, i: nat, j: nat)
    requires i < j < |AllEntries(w, subs)| && AllEntries(w, subs)[i].tag == AllEntries(w, subs)[j].tag
    ensures var a, b := AllEntries(w, subs)[i], AllEntries(w, subs)[j];
            a.index == b.index && a.provider < b.provider
  {
    var a, b := AllEntries(w, subs)[i], AllEntries(w, subs)[j];
    EntriesAreOrdered(w, subs);
    EntriesAreTheLines(w, subs);
    assert IsEntry(a, w, subs) && IsEntry(b, w, subs);
    var s, f := TagOfEntry(a, w, subs);
    var t, g := TagOfEntry(b, w, subs);
    TagDeterminesIndex(s, f, a.index, t, g, b.index);
  }

  lemma TagOfEntry(e: Entry, w: World, subs: seq<Subscription>) returns (name: string, fragment: string)
    requires IsEntry(e, w, subs)
    ensures e.tag == Tag(name, fragment, e.index)
  {
    name := subs[e.provider - 1].name;
    fragment := TagOfLines(e, w, e.provider, name, w.Lines(subs[e.provider - 1]));
  }

  lemma TagOfLines(e: Entry, w: World, provider: nat, name: string, lines: seq<string>) returns (fragment: string)
    requires OfLines(e, w, provider, name, lines)
    ensures e.tag == Tag(name, fragment, e.index)
  {
    fragment := TagOfLine(e, w, provider, name, lines[e.index - 1]);
  }

  lemma TagOfLine(e: Entry, w: World, provider: nat, name: string, raw: string) returns (fragment: string)
    requires Reads(e, w, provider, name, raw)
    ensures e.tag == Tag(name, fragment, e.index)
  {
    fragment := Fragment(w.Split(raw));
  }

  predicate Before(a: Entry, b: Entry) {
    a.provider < b.provider || (a.provider == b.provider && a.index < b.index)
  }

  predicate Ordered(es: seq<Entry>) {
    forall i, j :: 0 <= i < j < |es| ==> Before(es[i], es[j])
  }

  lemma OrderedConcat(a: seq<Entry>, b: seq<Entry>)
    requires Ordered(a) && Ordered(b) && forall x, y :: x in a && y in b ==> Before(x, y)
    ensures Ordered(a + b)
  {
    forall i, j | 0 <= i < j < |a + b| ensures Before((a + b)[i], (a + b)[j]) {
      if i < |a| && j >= |a| {
        assert a[i] in a && b[j - |a|] in b;
      }
    }
  }

  lemma {:induction false} LinesAreOrdered(w: World, provider: nat, name: string, lines: seq<string>)
    ensures Ordered(Entries(w, provider, name, lines))
  {
    if lines != [] {
      var front, raw := lines[..|lines| - 1], lines[|lines| - 1];
      LinesAreOrdered(w, provider, name, front);
      EntriesOfLines(w, provider, name, front);
      OrderedConcat(Entries(w, provider, name, front), LineEntry(w, provider, name, raw, |lines|));
    }
  }

  /** Entries come provider by provider, line by line. */
  lemma {:induction false} EntriesAreOrdered(w: World, subs: seq<Subscription>)
    ensures Ordered(AllEntries(w, subs))
  {
    if subs != [] {
      var n := |subs| - 1;
      EntriesAreOrdered(w, subs[..n]);
      EntriesAreTheLines(w, subs[..n]);
      LinesAreOrdered(w, |subs|, subs[n].name, w.Lines(subs[n]));
      EntriesOfLines(w, |subs|, subs[n].name, w.Lines(subs[n]));
      OrderedConcat(AllEntries(w, subs[..n]), Entries(w, |subs|, subs[n].name, w.Lines(subs[n])));
    }
  }

  predicate WarnsBefore(x: Warning, y: Warning) {
    x.provider < y.provider || (x.provider == y.provider && x.index < y.index)
  }

  predicate WarningsOrdered(xs: seq<Warning>) {
    forall i, j :: 0 <= i < j < |xs| ==> WarnsBefore(xs[i], xs[j])
  }

  lemma WarningsConcat(a: seq<Warning>, b: seq<Warning>)
    requires WarningsOrdered(a) && WarningsOrdered(b) && forall x, y :: x in a && y in b ==> WarnsBefore(x, y)
    ensures WarningsOrdered(a + b)
  {
    forall i, j | 0 <= i < j < |a + b| ensures WarnsBefore((a + b)[i], (a + b)[j]) {
      if i < |a| && j >= |a| {
        assert a[i] in a && b[j - |a|] in b;
      }
    }
  }

  lemma {:induction false} LineWarningsAreOrdered(w: World, provider: nat, lines: seq<string>)
    ensures WarningsOrdered(Warnings(w, provider, lines))
  {
    if lines != [] {
      var front, raw := lines[..|lines| - 1], lines[|lines| - 1];
      LineWarningsAreOrdered(w, provider, front);
      EntriesOfLines(w, provider, "", front);
      WarningsConcat(Warnings(w, provider, front), LineWarning(w, provider, raw, |lines|));
    }
  }

  /** Warnings come in the order of the lines too. */
  lemma {:induction false} WarningsAreOrdered(w: World, subs: seq<Subscription>)
    ensures WarningsOrdered(AllWarnings(w, subs))
  {
    if subs != [] {
      var n := |subs| - 1;
      WarningsAreOrdered(w, subs[..n]);
      EntriesAreTheLines(w, subs[..n]);
      LineWarningsAreOrdered(w, |subs|, w.Lines(subs[n]));
      EntriesOfLines(w, |subs|, "", w.Lines(subs[n]));
      WarningsConcat(AllWarnings(w, subs[..n]), Warnings(w, |subs|, w.Lines(subs[n])));
    }
  }

  /** A collision is with a base tag, or between equally numbered lines of two providers. */
  lemma CollisionOrigin(values: seq<Value>, w: World, subs: seq<Subscription>)
    ensures TagsOk(values, AllEntries(w, subs)) <==>
      var es := AllEntries(w, subs);
      && (forall i :: 0 <= i < |es| ==> es[i].tag !in BaseTags(values))
      && (forall i, j :: 0 <= i < j < |es| && es[i].index == es[j].index && es[i].provider < es[j].provider ==>
        es[i].tag != es[j].tag)
  {
    var es := AllEntries(w, subs);
    forall i, j | 0 <= i < j < |es| && es[i].tag == es[j].tag
      ensures es[i].index == es[j].index && es[i].provider < es[j].provider {
      CollisionNeedsEqualIndex(w, subs, i, j);
    }
  }

  // ---- adding a subscription ------------------------------------------------

  lemma {:induction false} FirstsOfPrefix(nodes: seq<Node>, more: seq<Node>)
    ensures Firsts(nodes) <= Firsts(nodes + more)
  {
    if more == [] {
      assert nodes + more == nodes;
    } else {
      var n := |more| - 1;
      FirstsOfPrefix(nodes, more[..n]);
      assert (nodes + more)[..|nodes| + n] == nodes + more[..n];
    }
  }

  lemma KeptOfPrefix(a: seq<Entry>, b: seq<Entry>)
    ensures Kept(a) <= Kept(a + b)
  {
    assert Nodes(a + b) == Nodes(a) + Nodes(b);
    FirstsOfPrefix(Nodes(a), Nodes(b));
    var ps, qs := Firsts(Nodes(a)), Firsts(Nodes(a + b));
    assert forall k :: 0 <= k < |ps| ==> qs[k] == ps[k] && (a + b)[ps[k]] == a[ps[k]];
  }

  lemma TagsOfPrefix(values: seq<Value>, a: seq<Entry>, b: seq<Entry>)
    requires TagsOk(values, a + b)
    ensures TagsOk(values, a)
  {
    assert forall i :: 0 <= i < |a| ==> (a + b)[i] == a[i];
  }

  lemma ProvidersOfPrefix(w: World, subs: seq<Subscription>, sub: Subscription)
    requires ProvidersOk(w, subs + [sub], |subs| + 1)
    ensures ProvidersOk(w, subs, |subs|)
  {
    forall p | 0 <= p < |subs| ensures ProviderOk(w, p + 1, subs[p]) {
      assert (subs + [sub])[p] == subs[p];
      assert ProviderOk(w, p + 1, (subs + [sub])[p]);
    }
  }

  lemma NamesOfPrefix(subs: seq<Subscription>, sub: Subscription)
    requires NamesOk(subs + [sub])
    ensures NamesOk(subs)
  {
    assert forall i :: 0 <= i < |subs| ==> (subs + [sub])[i] == subs[i];
  }

  lemma {:induction false} OthersOfFresh(subs: seq<Subscription>, name: string)
    requires forall i :: 0 <= i < |subs| ==> subs[i].name != name
    ensures Others(subs, name) == subs
  {
    if subs != [] {
      var front, last := subs[..|subs| - 1], subs[|subs| - 1];
      OthersOfFresh(front, name);
      assert Others(subs, name) == front + [last];
      assert front + [last] == subs;
    }
  }

  lemma AppendingKeepsPrefix(base: Object, subs: seq<Subscription>, sub: Subscription, w: World)
    requires Buildable(base, subs + [sub], w)
    ensures Buildable(base, subs, w)
    ensures Kept(AllEntries(w, subs)) <= Kept(AllEntries(w, subs + [sub]))
  {
    var all := subs + [sub];
    assert all[..|subs|] == subs;
    var before, added := AllEntries(w, subs), Entries(w, |all|, sub.name, w.Lines(sub));
    assert AllEntries(w, all) == before + added;
    NamesOfPrefix(subs, sub);
    ProvidersOfPrefix(w, subs, sub);
    TagsOfPrefix(Outbounds(base), before, added);
    KeptOfPrefix(before, added);
  }

  /**
   With unchanged feeds, adding a freshly named subscription only appends: what was
   generated before, tags included, stays in front.
   */
  lemma AddingAppends(base: Object, subs: seq<Subscription>, add: Subscription, w: World)
    requires forall i :: 0 <= i < |subs| ==> subs[i].name != add.name
    requires Buildable(base, Replaced(subs, add), w)
    ensures Buildable(base, subs, w)
    ensures Kept(AllEntries(w, subs)) <= Kept(AllEntries(w, Replaced(subs, add)))
  {
    OthersOfFresh(subs, add.name);
    AppendingKeepsPrefix(base, subs, add, w);
  }
}
