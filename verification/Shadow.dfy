/** The catalog client's merge, and why it agrees with the manager's. */
module Shadow {
  import opened Wrappers
  import opened Json
  import opened NodeUri
  import opened Generation
  import opened GenerationFacts
  import opened GenerationExact
  import Builder
  import Decimal
  import NodeParser

  const PREFIX := "catalog-shadow-"

  function ShadowTag(index: nat): string {
    PREFIX + Decimal.Print(index)
  }

  function ShadowEntry(w: World, raw: string, index: nat): seq<Entry> {
    match Parse(w.Split(raw))
    case Ok(node) => [Entry(1, index, ShadowTag(index), node)]
    case Err(_) => []
  }

  function ShadowEntries(w: World, raws: seq<string>): seq<Entry> {
    if raws == [] then [] else ShadowEntries(w, raws[..|raws| - 1]) + ShadowEntry(w, raws[|raws| - 1], |raws|)
  }

  predicate Parses(w: World, raw: string) {
    Parse(w.Split(raw)).Ok?
  }

  predicate AllParse(w: World, raws: seq<string>) {
    raws == [] || (AllParse(w, raws[..|raws| - 1]) && Parses(w, raws[|raws| - 1]))
  }

  predicate ShadowBuildable(base: Object, raws: seq<string>, w: World) {
    && BaseOk(base)
    && AllParse(w, raws)
    && TagsFree(Outbounds(base), |raws|)
  }

  predicate TagsFree(values: seq<Value>, count: nat) {
    forall n :: 1 <= n <= count ==> ShadowTag(n) !in BaseTags(values)
  }

  function ShadowConfig(base: Object, raws: seq<string>, w: World): Object {
    Config(base, Kept(ShadowEntries(w, raws)))
  }

  lemma ShadowTagsDiffer(i: nat, j: nat)
    ensures ShadowTag(i) == ShadowTag(j) ==> i == j
  {
    if ShadowTag(i) == ShadowTag(j) {
      assert Decimal.Print(i) == ShadowTag(i)[|PREFIX|..] == ShadowTag(j)[|PREFIX|..] == Decimal.Print(j);
      Decimal.PrintIsInjective(i, j);
    }
  }

  predicate Numbered(es: seq<Entry>) {
    forall i :: 0 <= i < |es| ==> es[i].tag == ShadowTag(i + 1)
  }

  lemma NumberedSnoc(es: seq<Entry>, e: Entry)
    requires Numbered(es) && e.tag == ShadowTag(|es| + 1)
    ensures Numbered(es + [e])
  {
    forall i | 0 <= i <= |es| ensures (es + [e])[i].tag == ShadowTag(i + 1) {
      if i < |es| {
        assert (es + [e])[i] == es[i];
      }
    }
  }

  lemma {:induction false} ShadowTagsAt(w: World, raws: seq<string>)
    requires AllParse(w, raws)
    ensures |ShadowEntries(w, raws)| == |raws| && Numbered(ShadowEntries(w, raws))
  {
    if raws != [] {
      var n := |raws|;
      var front, raw := raws[..n - 1], raws[n - 1];
      ShadowTagsAt(w, front);
      NumberedSnoc(ShadowEntries(w, front), Entry(1, n, ShadowTag(n), Parse(w.Split(raw)).value));
    }
  }

  // ---- the loops as written -------------------------------------------------

  datatype ShadowError = BadBase(error: Builder.BuildError) | NodeParseFailed(index: nat)
      | OutboundTagCollision(index: nat)

  predicate IsSelectorTag(tag: string) {
    tag in SELECTORS
  }

  lemma ShadowTagIsNoSelector(index: nat)
    ensures !IsSelectorTag(ShadowTag(index)) && ShadowTag(index) != ""
  {
    assert ShadowTag(index)[0] == 'c';
  }

  /** A parsed node is given its tag, compared without it, and appended if it is new. */
  method AppendNode(w: World, raws: seq<string>, i: nat, start: Builder.Progress, ghost values: seq<Value>,
      ghost es: seq<Entry>)
    returns (r: Result<Builder.Progress, ShadowError>)
    requires i < |raws| && AllParse(w, raws[..i]) && es == ShadowEntries(w, raws[..i])
    requires Builder.Tracks(start, values, es, [])
    ensures match r
            case Ok(v) =>
              && Parse(w.Split(raws[i])).Ok? && ShadowTag(i + 1) !in BaseTags(values)
              && Builder.Tracks(v, values, es + ShadowEntry(w, raws[i], i + 1), [])
            case Err(NodeParseFailed(n)) => n == i + 1 && Parse(w.Split(raws[i])).Err?
            case Err(OutboundTagCollision(n)) => n == i + 1 && ShadowTag(n) in BaseTags(values)
            case Err(BadBase(_)) => false
  {
    var v := start;
    var tag := ShadowTag(i + 1);
    var item := NodeParser.ParseURI(w.Split(raws[i]), tag);
    if item.Err? {
      return Err(NodeParseFailed(i + 1));
    }
    ShadowTagIsNoSelector(i + 1);
    NewShadowTag(w, raws, i, v, values, es);
    if tag in v.tags {
      return Err(OutboundTagCollision(i + 1));
    }
    ghost var e := Entry(1, i + 1, tag, Parse(w.Split(raws[i])).value);
    Builder.TracksEntry(v, values, es, [], e);
    v := v.(tags := v.tags + {tag});
    var fingerprint := item.value - {"tag"};
    if fingerprint !in v.seen {
      v := v.(seen := v.seen + {fingerprint}, outbounds := v.outbounds + [item.value]);
    }
    assert v.seen == start.seen + {fingerprint};
    return Ok(v);
  }

  method Append(w: World, raws: seq<string>, baseTags: set<string>, ghost values: seq<Value>)
    returns (r: Result<Builder.Progress, ShadowError>)
    requires forall t: string :: t != "" ==> (t in baseTags <==> t in BaseTags(values))
    ensures match r
            case Ok(v) => AllParse(w, raws) && TagsFree(values, |raws|)
              && Builder.Tracks(v, values, ShadowEntries(w, raws), [])
            case Err(NodeParseFailed(n)) => 1 <= n <= |raws| && Parse(w.Split(raws[n - 1])).Err?
            case Err(OutboundTagCollision(n)) => 1 <= n <= |raws| && ShadowTag(n) in BaseTags(values)
            case Err(BadBase(_)) => false
  {
    var v := Builder.Progress(baseTags, {}, [], [], 0);
    ghost var es: seq<Entry> := [];
    Builder.TracksNothing(baseTags, values);
    for i := 0 to |raws|
      invariant AllParse(w, raws[..i]) && TagsFree(values, i)
      invariant es == ShadowEntries(w, raws[..i])
      invariant Builder.Tracks(v, values, es, [])
    {
      var node := AppendNode(w, raws, i, v, values, es);
      if node.Err? {
        return node;
      }
      ShadowStep(w, raws, i, values);
      es := es + ShadowEntry(w, raws[i], i + 1);
      v := node.value;
    }
    assert raws[..|raws|] == raws;
    r := Ok(v);
  }

  lemma ShadowStep(w: World, raws: seq<string>, i: nat, values: seq<Value>)
    requires i < |raws| && AllParse(w, raws[..i]) && Parse(w.Split(raws[i])).Ok?
    requires TagsFree(values, i) && ShadowTag(i + 1) !in BaseTags(values)
    ensures AllParse(w, raws[..i + 1]) && TagsFree(values, i + 1)
    ensures ShadowEntries(w, raws[..i + 1]) == ShadowEntries(w, raws[..i]) + ShadowEntry(w, raws[i], i + 1)
  {
    assert raws[..i + 1][..i] == raws[..i];
  }

  /** Shadow tags never collide with each other, so a taken tag is one of the base. */
  lemma NewShadowTag(w: World, raws: seq<string>, i: nat, v: Builder.Progress, values: seq<Value>, es: seq<Entry>)
    requires i < |raws| && AllParse(w, raws[..i]) && es == ShadowEntries(w, raws[..i])
    requires Builder.Tracks(v, values, es, []) && ShadowTag(i + 1) != ""
    ensures ShadowTag(i + 1) in v.tags ==> ShadowTag(i + 1) in BaseTags(values)
  {
    ShadowTagsAt(w, raws[..i]);
    if ShadowTag(i + 1) in Tags(es) {
      var k :| 0 <= k < |es| && Tags(es)[k] == ShadowTag(i + 1);
      ShadowTagsDiffer(k + 1, i + 1);
    }
  }

  // The selectors are rewritten after the nodes were appended, over the whole list.

  lemma NodesAreNoSelectors(values: seq<Value>, kept: seq<Entry>)
    requires forall k :: 0 <= k < |kept| ==> !IsSelectorTag(kept[k].tag)
    ensures Selectors(values + Items(kept), Tags(kept)) == OutboundsAfter(values, kept)
  {
    var all := values + Items(kept);
    forall i | 0 <= i < |all| ensures WithGenerated(all[i], Tags(kept)) == OutboundsAfter(values, kept)[i] {
      OutboundAt(values, kept, i);
      if i >= |values| {
        TagOfItem(kept[i - |values|].tag, kept[i - |values|].node);
      }
    }
  }

  lemma KeptShadowTags(w: World, raws: seq<string>)
    requires AllParse(w, raws)
    ensures forall k :: 0 <= k < |Kept(ShadowEntries(w, raws))| ==> !IsSelectorTag(Kept(ShadowEntries(w, raws))[k].tag)
  {
    var es := ShadowEntries(w, raws);
    ShadowTagsAt(w, raws);
    forall k | 0 <= k < |Kept(es)| ensures !IsSelectorTag(Kept(es)[k].tag) {
      ShadowTagIsNoSelector(Firsts(Nodes(es))[k] + 1);
    }
  }

  lemma {:induction false} AllParseAt(w: World, raws: seq<string>, i: nat)
    requires AllParse(w, raws) && i < |raws|
    ensures Parses(w, raws[i])
  {
    if i < |raws| - 1 {
      AllParseAt(w, raws[..|raws| - 1], i);
    }
  }

  lemma {:induction false} SomeDoesNotParse(w: World, raws: seq<string>) returns (i: nat)
    requires !AllParse(w, raws)
    ensures i < |raws| && !Parses(w, raws[i])
  {
    var n := |raws| - 1;
    if Parses(w, raws[n]) {
      i := SomeDoesNotParse(w, raws[..n]);
    } else {
      i := n;
    }
  }

  method Merge(base: Object, raws: seq<string>, w: World) returns (r: Result<(Object, nat), ShadowError>)
    ensures r.Ok? <==> ShadowBuildable(base, raws, w)
    ensures match r
            case Ok((config, count)) =>
              && config == ShadowConfig(base, raws, w)
              && count == |Kept(ShadowEntries(w, raws))|
            case Err(NodeParseFailed(n)) => 1 <= n <= |raws| && Parse(w.Split(raws[n - 1])).Err?
            case Err(OutboundTagCollision(n)) => 1 <= n <= |raws| && ShadowTag(n) in BaseTags(Outbounds(base))
            case Err(BadBase(_)) => !BaseOk(base)
  {
    var tags := Builder.ReadBase(base);
    if tags.Err? {
      return Err(BadBase(tags.error));
    }
    var values := base["outbounds"].items;
    var appended := Append(w, raws, tags.value, values);
    if appended.Err? {
      if ShadowBuildable(base, raws, w) && appended.error.NodeParseFailed? {
        AllParseAt(w, raws, appended.error.index - 1);
      }
      return Err(appended.error);
    }
    var v := appended.value;
    ghost var kept := Kept(ShadowEntries(w, raws));
    var generated, items := Builder.Listed(v.outbounds, kept);
    var outbounds := Builder.PrependGenerated(values + items, generated, Tags(kept));
    KeptShadowTags(w, raws);
    NodesAreNoSelectors(values, kept);
    assert base["outbounds" := Arr(outbounds)] == Config(base, kept);
    r := Ok((base["outbounds" := Arr(outbounds)], |v.outbounds|));
  }

  /** The outbound has the tag of the `n`-th node. */
  predicate Takes(outbound: Value, n: nat) {
    HasTag(outbound, "catalog-shadow-" + Decimal.Print(n))
  }

  lemma TakesIsTag(outbound: Value, n: nat)
    ensures Takes(outbound, n) <==> TagOf(outbound) == ShadowTag(n)
  {
    ShadowTagIsNoSelector(n);
    HasItsTag(outbound, ShadowTag(n));
  }

  lemma NumbersAreFree(values: seq<Value>, count: nat)
    ensures TagsFree(values, count) <==>
              forall i, n: nat :: 0 <= i < |values| && 1 <= n <= count ==> !Takes(values[i], n)
  {
    if TagsFree(values, count) {
      forall i, n: nat | 0 <= i < |values| && 1 <= n <= count ensures !Takes(values[i], n) {
        TakesIsTag(values[i], n);
        assert TagOf(values[i]) in BaseTags(values) && ShadowTag(n) !in BaseTags(values);
      }
    } else {
      var n: nat :| 1 <= n <= count && ShadowTag(n) in BaseTags(values);
      var i :| 0 <= i < |values| && TagOf(values[i]) == ShadowTag(n);
      TakesIsTag(values[i], n);
    }
  }

  /** The merge succeeds exactly if the base can be extended, every URI parses and no numbered tag is taken. */
  lemma ShadowBuildsExactly(base: Object, raws: seq<string>, w: World)
    ensures ShadowBuildable(base, raws, w) <==>
              && Extendable(base)
              && (forall i :: 0 <= i < |raws| ==> Parses(w, raws[i]))
              && (forall i, n: nat :: 0 <= i < |Outbounds(base)| && 1 <= n <= |raws| ==> !Takes(Outbounds(base)[i], n))
  {
    ExtendableIsBaseOk(base);
    if AllParse(w, raws) {
      forall i | 0 <= i < |raws| ensures Parses(w, raws[i]) {
        AllParseAt(w, raws, i);
      }
    } else {
      var i := SomeDoesNotParse(w, raws);
    }
    NumbersAreFree(Outbounds(base), |raws|);
  }

  // ---- agreement with the manager --------------------------------------------

  function ParsedNodes(w: World, raws: seq<string>): seq<Node> {
    if raws == [] then [] else
    ParsedNodes(w, raws[..|raws| - 1])
      + match Parse(w.Split(raws[|raws| - 1])) case Ok(node) => [node] case Err(_) => []
  }

  function AllLines(w: World, subs: seq<Subscription>): seq<string> {
    if subs == [] then [] else AllLines(w, subs[..|subs| - 1]) + w.Lines(subs[|subs| - 1])
  }

  lemma {:induction false} ParsedNodesOfConcat(w: World, a: seq<string>, b: seq<string>)
    ensures ParsedNodes(w, a + b) == ParsedNodes(w, a) + ParsedNodes(w, b)
  {
    if b == [] {
      assert a + b == a;
    } else {
      ParsedNodesOfConcat(w, a, b[..|b| - 1]);
      assert (a + b)[..|a + b| - 1] == a + b[..|b| - 1];
    }
  }

  lemma {:induction false} NodesOfEntries(w: World, provider: nat, name: string, lines: seq<string>)
    ensures Nodes(Entries(w, provider, name, lines)) == ParsedNodes(w, lines)
  {
    if lines != [] {
      NodesOfEntries(w, provider, name, lines[..|lines| - 1]);
    }
  }

  lemma {:induction false} NodesOfAllEntries(w: World, subs: seq<Subscription>)
    ensures Nodes(AllEntries(w, subs)) == ParsedNodes(w, AllLines(w, subs))
  {
    if subs != [] {
      var last := subs[|subs| - 1];
      NodesOfAllEntries(w, subs[..|subs| - 1]);
      NodesOfEntries(w, |subs|, last.name, w.Lines(last));
      ParsedNodesOfConcat(w, AllLines(w, subs[..|subs| - 1]), w.Lines(last));
    }
  }

  lemma {:induction false} NodesOfShadow(w: World, raws: seq<string>)
    ensures Nodes(ShadowEntries(w, raws)) == ParsedNodes(w, raws)
  {
    if raws != [] {
      NodesOfShadow(w, raws[..|raws| - 1]);
    }
  }

  /**
   Two extensions of one base that differ in nothing but the tags of the outbounds they
   add: the same outbounds in the same order, and selectors that name them in that order
   before the same references as in the base.
   */
  predicate EqualUpToTags(base: Object, a: Object, tagsA: seq<string>, b: Object, tagsB: seq<string>) {
    var values, x, y := Outbounds(base), Outbounds(a), Outbounds(b);
    && a - {"outbounds"} == b - {"outbounds"}
    && |x| == |y| == |values| + |tagsA| == |values| + |tagsB|
    && (forall i :: 0 <= i < |values| ==>
      OnlyPrepended(values[i], x[i], tagsA) && OnlyPrepended(values[i], y[i], tagsB))
    && (forall i :: |values| <= i < |x| ==> EqualButTag(x[i], tagsA[i - |values|], y[i], tagsB[i - |values|]))
  }

  predicate EqualButTag(x: Value, tagX: string, y: Value, tagY: string) {
    && x.Obj? && y.Obj? && x.fields - {"tag"} == y.fields - {"tag"}
    && TagOf(x) == tagX && TagOf(y) == tagY
  }

  lemma ItemsDifferInTag(p: Entry, q: Entry)
    requires p.node == q.node
    ensures EqualButTag(Obj(Item(p.tag, p.node)), p.tag, Obj(Item(q.tag, q.node)), q.tag)
  {
    TagOfItem(p.tag, p.node);
    TagOfItem(q.tag, q.node);
  }

  lemma ExtensionsAgree(values: seq<Value>, x: seq<Value>, p: seq<Entry>, y: seq<Value>, q: seq<Entry>)
    requires OutboundsExtended(values, x, p) && OutboundsExtended(values, y, q) && Nodes(p) == Nodes(q)
    ensures |x| == |y| == |values| + |p| == |values| + |q|
    ensures forall i :: |values| <= i < |x| ==> EqualButTag(x[i], Tags(p)[i - |values|], y[i], Tags(q)[i - |values|])
  {
    forall i | |values| <= i < |x|
      ensures EqualButTag(x[i], Tags(p)[i - |values|], y[i], Tags(q)[i - |values|])
    {
      var k := i - |values|;
      assert Nodes(p)[k] == Nodes(q)[k];
      ItemsDifferInTag(p[k], q[k]);
    }
  }

  lemma EqualUpToTagsOf(base: Object, p: seq<Entry>, q: seq<Entry>)
    requires Nodes(p) == Nodes(q)
    ensures EqualUpToTags(base, Config(base, p), Tags(p), Config(base, q), Tags(q))
  {
    ConfigFrame(base, p);
    ConfigFrame(base, q);
    ExtensionsAgree(Outbounds(base), Outbounds(Config(base, p)), p, Outbounds(Config(base, q)), q);
  }

  /**
   For one list of URIs that all parse, however it is spread over subscriptions, the
   manager and the shadow builder keep the same positions of the list; position `n`,
   counted from 1, gets the shadow tag with number `n`.
   */
  lemma SamePositionsKept(subs: seq<Subscription>, w: World)
    requires AllParse(w, AllLines(w, subs))
    ensures var raws := AllLines(w, subs);
            var ours, theirs, nodes := AllEntries(w, subs), ShadowEntries(w, raws), ParsedNodes(w, raws);
            && |nodes| == |ours| == |theirs| == |raws|
            && Kept(ours) == Select(ours, Firsts(nodes)) && Kept(theirs) == Select(theirs, Firsts(nodes))
            && (forall k :: 0 <= k < |Firsts(nodes)| ==>
                  Kept(theirs)[k].tag == "catalog-shadow-" + Decimal.Print(Firsts(nodes)[k] + 1))
  {
    var raws := AllLines(w, subs);
    NodesOfAllEntries(w, subs);
    NodesOfShadow(w, raws);
    ShadowTagsAt(w, raws);
    KeptNumbers(ShadowEntries(w, raws), ParsedNodes(w, raws));
  }

  /** And they produce the same config up to the tags of the outbounds they add. */
  lemma ShadowAgreesWithManager(base: Object, subs: seq<Subscription>, w: World)
    requires AllParse(w, AllLines(w, subs))
    ensures var ours, theirs := AllEntries(w, subs), ShadowEntries(w, AllLines(w, subs));
            EqualUpToTags(
              base, Generated(base, subs, w).config, Tags(Kept(ours)),
              ShadowConfig(base, AllLines(w, subs), w), Tags(Kept(theirs)))
  {
    var raws := AllLines(w, subs);
    NodesOfAllEntries(w, subs);
    NodesOfShadow(w, raws);
    AgreementOf(base, AllEntries(w, subs), ShadowEntries(w, raws), ParsedNodes(w, raws));
  }

  lemma KeptNumbers(theirs: seq<Entry>, nodes: seq<Node>)
    requires Numbered(theirs) && Nodes(theirs) == nodes
    ensures |Kept(theirs)| == |Firsts(nodes)|
    ensures forall k :: 0 <= k < |Firsts(nodes)| ==> Kept(theirs)[k].tag == ShadowTag(Firsts(nodes)[k] + 1)
  {
  }

  lemma AgreementOf(base: Object, ours: seq<Entry>, theirs: seq<Entry>, nodes: seq<Node>)
    requires Nodes(ours) == nodes == Nodes(theirs)
    ensures Kept(ours) == Select(ours, Firsts(nodes)) && Kept(theirs) == Select(theirs, Firsts(nodes))
    ensures EqualUpToTags(base, Config(base, Kept(ours)), Tags(Kept(ours)), Config(base, Kept(theirs)),
              Tags(Kept(theirs)))
  {
    var positions := Firsts(nodes);
    assert forall k :: 0 <= k < |positions| ==>
      ours[positions[k]].node == nodes[positions[k]] == theirs[positions[k]].node;
    assert Nodes(Kept(ours)) == Nodes(Kept(theirs));
    EqualUpToTagsOf(base, Kept(ours), Kept(theirs));
  }
}
