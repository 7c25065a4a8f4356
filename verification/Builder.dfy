/** `buildState` up to publication: the loops that fill tags, fingerprints and outbounds. */
module Builder {
  import opened Wrappers
  import opened Json
  import opened NodeUri
  import opened Names
  import opened Generation
  import FeedBody
  import GenerationFacts
  import NodeIdentity
  import NodeParser

  datatype BuildError =
    | BaseOutboundsNotArray
    | InvalidBaseOutbound
    | BaseTagCollision
    | NameCollision
    | FetchFailed(provider: nat)
    | EmptyFeed(provider: nat)
    | NoUsableNodes(provider: nat)
    | TagCollision

  /** What each error says about the input. */
  predicate Blames(e: BuildError, base: Object, subs: seq<Subscription>, w: World) {
    match e
    case BaseOutboundsNotArray => !("outbounds" in base && base["outbounds"].Arr?)
    case InvalidBaseOutbound => exists i :: 0 <= i < |Outbounds(base)| && !Outbounds(base)[i].Obj?
    case BaseTagCollision => !NonEmptyTagsDiffer(Outbounds(base))
    case NameCollision => !NamesOk(subs)
    case TagCollision => !TagsOk(Outbounds(base), AllEntries(w, subs))
    case _ => exists p :: 0 <= p < |subs| && BlamesProvider(e, w, p + 1, subs[p])
  }

  predicate BlamesProvider(e: BuildError, w: World, p: nat, sub: Subscription) {
    match e
    case FetchFailed(q) => q == p && sub.url !in w.feeds
    case EmptyFeed(q) => q == p && sub.url in w.feeds && w.Lines(sub) == []
    case NoUsableNodes(q) => q == p && w.Lines(sub) != [] && Entries(w, p, sub.name, w.Lines(sub)) == []
    case _ => false
  }

  method ReadBase(base: Object) returns (r: Result<set<string>, BuildError>)
    ensures r.Ok? <==> BaseOk(base)
    ensures r.Ok? ==> forall t: string :: t != "" ==> (t in r.value <==> t in BaseTags(Outbounds(base)))
    ensures r.Err? ==> forall subs, w :: Blames(r.error, base, subs, w)
  {
    if "outbounds" !in base || !base["outbounds"].Arr? {
      return Err(BaseOutboundsNotArray);
    }
    var values := base["outbounds"].items;
    var tags: set<string> := {};
    for i := 0 to |values|
      invariant forall k :: 0 <= k < i ==> values[k].Obj?
      invariant tags == set k | 0 <= k < i :: TagOf(values[k])
      invariant NonEmptyTagsDiffer(values[..i])
    {
      if !values[i].Obj? {
        assert !Outbounds(base)[i].Obj?;
        return Err(InvalidBaseOutbound);
      }
      var tag := TagOf(values[i]);
      if tag != "" && tag in tags {
        var k :| 0 <= k < i && TagOf(values[k]) == tag;
        return Err(BaseTagCollision);
      }
      tags := tags + {tag};
    }
    assert values[..|values|] == values;
    return Ok(tags);
  }

  method CheckNames(subs: seq<Subscription>) returns (ok: bool)
    ensures ok <==> NamesOk(subs)
  {
    var names: set<string> := {};
    for i := 0 to |subs|
      invariant forall k :: 0 <= k < i ==> subs[k].name != ""
      invariant names == set k | 0 <= k < i :: Sanitize(subs[k].name)
      invariant forall j, k :: 0 <= j < k < i ==> Sanitize(subs[j].name) != Sanitize(subs[k].name)
    {
      var name := Sanitize(subs[i].name);
      if subs[i].name == "" || name in names {
        return false;
      }
      names := names + {name};
    }
    return true;
  }

  // ---- the nested loop ------------------------------------------------------

  /** The variables of the merge loop. `seen` holds outbounds without their tags. */
  datatype Progress = Progress(tags: set<string>, seen: set<Object>, outbounds: seq<Object>, warnings: seq<Warning>,
      skipped: nat)

  /** The outbounds are the items of the entries kept, in order. */
  predicate Holds(outbounds: seq<Object>, kept: seq<Entry>) {
    |outbounds| == |kept| && forall k :: 0 <= k < |kept| ==> outbounds[k] == Item(kept[k].tag, kept[k].node)
  }

  /** Untagged base outbounds aside, the tags are those of the base and of the entries. */
  ghost predicate TagsAre(tags: set<string>, values: seq<Value>, entries: seq<Entry>) {
    forall t: string :: t != "" ==> (t in tags <==> t in BaseTags(values) || t in Tags(entries))
  }

  ghost predicate SeenAre(seen: set<Object>, nodes: seq<Node>) {
    forall n: Node :: Body(n) in seen <==> n in nodes
  }

  /** The variables after the lines that gave `entries` and `warnings` have been read without a collision. */
  ghost predicate Tracks(v: Progress, values: seq<Value>, entries: seq<Entry>, warnings: seq<Warning>) {
    && TagsOk(values, entries)
    && TagsAre(v.tags, values, entries)
    && SeenAre(v.seen, Nodes(entries))
    && Holds(v.outbounds, Kept(entries))
    && v.warnings == Reported(warnings)
    && v.skipped == |warnings|
  }

  lemma KeptOfSnoc(entries: seq<Entry>, e: Entry)
    ensures Kept(entries + [e]) == Kept(entries) + if e.node in Nodes(entries) then [] else [e]
  {
    var n := Nodes(entries + [e]);
    assert n == Nodes(entries) + [e.node];
    assert n[..|entries|] == Nodes(entries);
  }

  lemma OutboundsGrow(outbounds: seq<Object>, entries: seq<Entry>, e: Entry)
    requires Holds(outbounds, Kept(entries))
    ensures var grown := if e.node in Nodes(entries) then outbounds else outbounds + [Item(e.tag, e.node)];
            Holds(grown, Kept(entries + [e]))
  {
    KeptOfSnoc(entries, e);
  }

  lemma SeenAfter(seen: set<Object>, nodes: seq<Node>, node: Node)
    requires SeenAre(seen, nodes)
    ensures Body(node) in seen <==> node in nodes
    ensures SeenAre(seen + {Body(node)}, nodes + [node])
  {
    forall n: Node ensures Body(n) in seen + {Body(node)} <==> n in nodes + [node] {
      NodeIdentity.BodyIsInjective(n, node);
    }
  }

  lemma TagsGrow(tags: set<string>, values: seq<Value>, entries: seq<Entry>, e: Entry)
    requires TagsAre(tags, values, entries)
    ensures TagsAre(tags + {e.tag}, values, entries + [e])
  {
    assert Tags(entries + [e]) == Tags(entries) + [e.tag];
  }

  lemma TracksEntry(v: Progress, values: seq<Value>, entries: seq<Entry>, warnings: seq<Warning>, e: Entry)
    requires Tracks(v, values, entries, warnings)
    requires e.tag != "" && e.tag !in v.tags
    ensures var body := Body(e.node);
            var outbounds := if body in v.seen then v.outbounds else v.outbounds + [Item(e.tag, e.node)];
            var after := v.(tags := v.tags + {e.tag}, seen := v.seen + {body}, outbounds := outbounds);
            Tracks(after, values, entries + [e], warnings)
  {
    OutboundsGrow(v.outbounds, entries, e);
    TagsGrow(v.tags, values, entries, e);
    TagsStayOk(v.tags, values, entries, e);
    SeenGrows(v.seen, entries, e);
  }

  lemma SeenGrows(seen: set<Object>, entries: seq<Entry>, e: Entry)
    requires SeenAre(seen, Nodes(entries))
    ensures Body(e.node) in seen <==> e.node in Nodes(entries)
    ensures SeenAre(seen + {Body(e.node)}, Nodes(entries + [e]))
  {
    SeenAfter(seen, Nodes(entries), e.node);
    assert Nodes(entries + [e]) == Nodes(entries) + [e.node];
  }

  lemma TagsStayOk(tags: set<string>, values: seq<Value>, entries: seq<Entry>, e: Entry)
    requires TagsOk(values, entries) && TagsAre(tags, values, entries) && e.tag != "" && e.tag !in tags
    ensures TagsOk(values, entries + [e])
  {
    TagsOfSnoc(values, entries, e);
  }

  lemma TagsOfSnoc(values: seq<Value>, entries: seq<Entry>, e: Entry)
    ensures TagsOk(values, entries + [e]) <==>
              TagsOk(values, entries) && e.tag !in BaseTags(values) && e.tag !in Tags(entries)
  {
    var all := entries + [e];
    assert forall i :: 0 <= i < |entries| ==> all[i] == entries[i];
    assert all[|entries|] == e;
  }

  method AddLine(w: World, provider: nat, name: string, raw: string, index: nat, start: Progress,
      ghost values: seq<Value>, ghost entries: seq<Entry>, ghost warnings: seq<Warning>)
    returns (r: Result<(Progress, nat), BuildError>)
    requires Tracks(start, values, entries, warnings)
    ensures match r
            case Ok((v, parsed)) =>
              && Tracks(v, values, entries + LineEntry(w, provider, name, raw, index),
                        warnings + LineWarning(w, provider, raw, index))
              && parsed == |LineEntry(w, provider, name, raw, index)|
            case Err(e) => e == TagCollision && !TagsOk(values, entries + LineEntry(w, provider, name, raw, index))
  {
    var v := start;
    var uri := w.Split(raw);
    var tag := Tag(name, Fragment(uri), index);
    var parse := NodeParser.ParseURI(uri, tag);
    match parse {
      case Err(e) =>
        v := v.(skipped := v.skipped + 1);
        if |v.warnings| < MAX_WARNINGS {
          v := v.(warnings := v.warnings + [Warning(provider, index, e)]);
        }
        assert entries + [] == entries;
        return Ok((v, 0));
      case Ok(item) =>
        ghost var e := Entry(provider, index, tag, Parse(uri).value);
        assert warnings + [] == warnings;
        if tag in v.tags {
          TagsOfSnoc(values, entries, e);
          return Err(TagCollision);
        }
        TracksEntry(v, values, entries, warnings, e);
        v := v.(tags := v.tags + {tag});
        var body := item - {"tag"};
        if body !in v.seen {
          v := v.(seen := v.seen + {body}, outbounds := v.outbounds + [item]);
        }
        assert v.seen == start.seen + {body};
        return Ok((v, 1));
    }
  }

  method AddProvider(w: World, provider: nat, name: string, lines: seq<string>, start: Progress,
      ghost values: seq<Value>, ghost entries: seq<Entry>, ghost warnings: seq<Warning>)
    returns (r: Result<(Progress, nat), BuildError>)
    requires Tracks(start, values, entries, warnings)
    ensures match r
            case Ok((v, parsed)) =>
              && Tracks(v, values, entries + Entries(w, provider, name, lines), warnings + Warnings(w, provider, lines))
              && parsed == |Entries(w, provider, name, lines)|
            case Err(e) => e == TagCollision && !TagsOk(values, entries + Entries(w, provider, name, lines))
  {
    var v, parsed := start, 0;
    ghost var es, ws := entries, warnings;
    assert entries + [] == entries && warnings + [] == warnings;
    for i := 0 to |lines|
      invariant es == entries + Entries(w, provider, name, lines[..i])
      invariant ws == warnings + Warnings(w, provider, lines[..i])
      invariant Tracks(v, values, es, ws)
      invariant parsed == |Entries(w, provider, name, lines[..i])|
    {
      var line := AddLine(w, provider, name, lines[i], i + 1, v, values, es, ws);
      EntriesStepAfter(w, provider, name, lines, i, entries, warnings);
      es := es + LineEntry(w, provider, name, lines[i], i + 1);
      ws := ws + LineWarning(w, provider, lines[i], i + 1);
      if line.Err? {
        CollisionStays(w, provider, name, lines, i + 1, values, entries);
        return line;
      }
      v, parsed := line.value.0, parsed + line.value.1;
    }
    assert lines[..|lines|] == lines;
    r := Ok((v, parsed));
  }

  lemma EntriesStep(w: World, provider: nat, name: string, lines: seq<string>, i: nat)
    requires i < |lines|
    ensures Entries(w, provider, name, lines[..i + 1])
              == Entries(w, provider, name, lines[..i]) + LineEntry(w, provider, name, lines[i], i + 1)
    ensures Warnings(w, provider, lines[..i + 1])
              == Warnings(w, provider, lines[..i]) + LineWarning(w, provider, lines[i], i + 1)
  {
    assert lines[..i + 1][..i] == lines[..i];
  }

  lemma EntriesStepAfter(w: World, provider: nat, name: string, lines: seq<string>, i: nat,
      entries: seq<Entry>, warnings: seq<Warning>)
    requires i < |lines|
    ensures var before, line := Entries(w, provider, name, lines[..i]), LineEntry(w, provider, name, lines[i], i + 1);
            && entries + before + line == entries + Entries(w, provider, name, lines[..i + 1])
            && |Entries(w, provider, name, lines[..i + 1])| == |before| + |line|
    ensures warnings + Warnings(w, provider, lines[..i]) + LineWarning(w, provider, lines[i], i + 1)
              == warnings + Warnings(w, provider, lines[..i + 1])
  {
    EntriesStep(w, provider, name, lines, i);
  }

  lemma {:induction false} EntriesOfPrefix(w: World, provider: nat, name: string, lines: seq<string>, i: nat)
    requires i <= |lines|
    ensures Entries(w, provider, name, lines[..i]) <= Entries(w, provider, name, lines)
    decreases |lines| - i
  {
    if i == |lines| {
      assert lines[..i] == lines;
    } else {
      EntriesStep(w, provider, name, lines, i);
      EntriesOfPrefix(w, provider, name, lines, i + 1);
    }
  }

  lemma CollisionStays(w: World, provider: nat, name: string, lines: seq<string>, i: nat, values: seq<Value>,
      entries: seq<Entry>)
    requires i <= |lines| && !TagsOk(values, entries + Entries(w, provider, name, lines[..i]))
    ensures !TagsOk(values, entries + Entries(w, provider, name, lines))
  {
    var some, all := Entries(w, provider, name, lines[..i]), Entries(w, provider, name, lines);
    EntriesOfPrefix(w, provider, name, lines, i);
    assert entries + all == (entries + some) + all[|some|..];
    if TagsOk(values, entries + all) {
      GenerationFacts.TagsOfPrefix(values, entries + some, all[|some|..]);
    }
  }

  lemma AllEntriesStep(w: World, subs: seq<Subscription>, p: nat)
    requires p < |subs|
    ensures var lines := w.Lines(subs[p]);
            && AllEntries(w, subs[..p + 1]) == AllEntries(w, subs[..p]) + Entries(w, p + 1, subs[p].name, lines)
            && AllWarnings(w, subs[..p + 1]) == AllWarnings(w, subs[..p]) + Warnings(w, p + 1, lines)
            && LineCount(w, subs[..p + 1]) == LineCount(w, subs[..p]) + |lines|
  {
    assert subs[..p + 1][..p] == subs[..p];
  }

  lemma {:induction false} AllEntriesOfPrefix(w: World, subs: seq<Subscription>, p: nat)
    requires p <= |subs|
    ensures AllEntries(w, subs[..p]) <= AllEntries(w, subs)
    decreases |subs| - p
  {
    if p == |subs| {
      assert subs[..p] == subs;
    } else {
      AllEntriesStep(w, subs, p);
      AllEntriesOfPrefix(w, subs, p + 1);
    }
  }

  lemma CollisionBlames(w: World, subs: seq<Subscription>, p: nat, values: seq<Value>)
    requires p <= |subs| && !TagsOk(values, AllEntries(w, subs[..p]))
    ensures !TagsOk(values, AllEntries(w, subs))
  {
    var some, all := AllEntries(w, subs[..p]), AllEntries(w, subs);
    AllEntriesOfPrefix(w, subs, p);
    assert all == some + all[|some|..];
    if TagsOk(values, all) {
      GenerationFacts.TagsOfPrefix(values, some, all[|some|..]);
    }
  }

  lemma TracksNothing(baseTags: set<string>, values: seq<Value>)
    requires forall t: string :: t != "" ==> (t in baseTags <==> t in BaseTags(values))
    ensures Tracks(Progress(baseTags, {}, [], [], 0), values, [], [])
  {
  }

  /** One provider: fetch, decode, merge. */
  method ReadProvider(w: World, p: nat, sub: Subscription, start: Progress,
      ghost values: seq<Value>, ghost entries: seq<Entry>, ghost warnings: seq<Warning>)
    returns (r: Result<Progress, BuildError>)
    requires Tracks(start, values, entries, warnings)
    ensures r.Ok? ==>
              && ProviderOk(w, p, sub)
              && Tracks(r.value, values, entries + Entries(w, p, sub.name, w.Lines(sub)),
                        warnings + Warnings(w, p, w.Lines(sub)))
    ensures r == Err(TagCollision) ==> !TagsOk(values, entries + Entries(w, p, sub.name, w.Lines(sub)))
    ensures r.Err? && r.error != TagCollision ==> BlamesProvider(r.error, w, p, sub)
  {
    if sub.url !in w.feeds {
      return Err(FetchFailed(p));
    }
    var uris := FeedBody.DecodeBody(w.feeds[sub.url]);
    if |uris| == 0 {
      return Err(EmptyFeed(p));
    }
    var provider := AddProvider(w, p, sub.name, uris, start, values, entries, warnings);
    if provider.Err? {
      return Err(TagCollision);
    }
    if provider.value.1 == 0 {
      return Err(NoUsableNodes(p));
    }
    return Ok(provider.value.0);
  }

  method Collect(w: World, subs: seq<Subscription>, baseTags: set<string>, ghost base: Object)
    returns (r: Result<Progress, BuildError>)
    requires forall t: string :: t != "" ==> (t in baseTags <==> t in BaseTags(Outbounds(base)))
    ensures r.Ok? ==>
              && ProvidersOk(w, subs, |subs|)
              && Tracks(r.value, Outbounds(base), AllEntries(w, subs), AllWarnings(w, subs))
    ensures r.Err? ==>
              && Blames(r.error, base, subs, w)
              && (!ProvidersOk(w, subs, |subs|) || !TagsOk(Outbounds(base), AllEntries(w, subs)))
  {
    var v := Progress(baseTags, {}, [], [], 0);
    ghost var values := Outbounds(base);
    ghost var es: seq<Entry>, ws: seq<Warning> := [], [];
    TracksNothing(baseTags, values);
    for p := 0 to |subs|
      invariant ProvidersOk(w, subs, p)
      invariant es == AllEntries(w, subs[..p]) && ws == AllWarnings(w, subs[..p])
      invariant Tracks(v, values, es, ws)
    {
      var provider := ReadProvider(w, p + 1, subs[p], v, values, es, ws);
      AllEntriesStep(w, subs, p);
      es := es + Entries(w, p + 1, subs[p].name, w.Lines(subs[p]));
      ws := ws + Warnings(w, p + 1, w.Lines(subs[p]));
      if provider.Err? {
        FailureBlames(provider.error, base, w, subs, p);
        return Err(provider.error);
      }
      ProvidersOkStep(w, subs, p);
      v := provider.value;
    }
    assert subs[..|subs|] == subs;
    r := Ok(v);
  }

  lemma ProvidersOkStep(w: World, subs: seq<Subscription>, p: nat)
    requires p < |subs| && ProvidersOk(w, subs, p) && ProviderOk(w, p + 1, subs[p])
    ensures ProvidersOk(w, subs, p + 1)
  {
  }

  lemma FailureBlames(e: BuildError, base: Object, w: World, subs: seq<Subscription>, p: nat)
    requires p < |subs|
    requires if e == TagCollision then !TagsOk(Outbounds(base), AllEntries(w, subs[..p + 1]))
              else BlamesProvider(e, w, p + 1, subs[p])
    ensures Blames(e, base, subs, w)
    ensures !ProvidersOk(w, subs, |subs|) || !TagsOk(Outbounds(base), AllEntries(w, subs))
  {
    if e == TagCollision {
      CollisionBlames(w, subs, p + 1, Outbounds(base));
    } else {
      assert !ProviderOk(w, p + 1, subs[p]);
    }
  }

  // ---- assembling the config ------------------------------------------------

  lemma HeldAt(outbounds: seq<Object>, kept: seq<Entry>, k: nat)
    requires Holds(outbounds, kept) && k < |kept|
    ensures "tag" in outbounds[k] && outbounds[k]["tag"] == Str(kept[k].tag)
    ensures Items(kept)[k] == Obj(outbounds[k])
  {
  }

  lemma HeldAll(outbounds: seq<Object>, kept: seq<Entry>)
    requires Holds(outbounds, kept)
    ensures |outbounds| == |kept| && forall k :: 0 <= k < |kept| ==>
              "tag" in outbounds[k] && outbounds[k]["tag"] == Str(kept[k].tag)
    ensures forall k :: 0 <= k < |kept| ==> Items(kept)[k] == Obj(outbounds[k])
  {
    forall k | 0 <= k < |kept|
      ensures "tag" in outbounds[k] && outbounds[k]["tag"] == Str(kept[k].tag) && Items(kept)[k] == Obj(outbounds[k])
    {
      HeldAt(outbounds, kept, k);
    }
  }

  method GeneratedTags(outbounds: seq<Object>) returns (tags: seq<Value>)
    requires forall k :: 0 <= k < |outbounds| ==> "tag" in outbounds[k]
    ensures |tags| == |outbounds| && forall k :: 0 <= k < |tags| ==> tags[k] == outbounds[k]["tag"]
  {
    tags := [];
    for k := 0 to |outbounds|
      invariant |tags| == k && forall i :: 0 <= i < k ==> tags[i] == outbounds[i]["tag"]
    {
      tags := tags + [outbounds[k]["tag"]];
    }
  }

  /** The generated outbounds as JSON values, in order. */
  method ItemValues(outbounds: seq<Object>) returns (items: seq<Value>)
    ensures |items| == |outbounds| && forall k :: 0 <= k < |items| ==> items[k] == Obj(outbounds[k])
  {
    items := [];
    for k := 0 to |outbounds|
      invariant |items| == k && forall i :: 0 <= i < k ==> items[i] == Obj(outbounds[i])
    {
      items := items + [Obj(outbounds[k])];
    }
  }

  /** Both, in terms of the entries kept. */
  method Listed(outbounds: seq<Object>, ghost kept: seq<Entry>) returns (tags: seq<Value>, items: seq<Value>)
    requires Holds(outbounds, kept)
    ensures tags == Strings(Tags(kept)) && items == Items(kept)
  {
    HeldAll(outbounds, kept);
    tags := GeneratedTags(outbounds);
    items := ItemValues(outbounds);
  }

  method PrependGenerated(values: seq<Value>, generatedTags: seq<Value>, ghost tags: seq<string>)
      returns (r: seq<Value>)
    requires forall i :: 0 <= i < |values| ==> values[i].Obj?
    requires generatedTags == Strings(tags)
    ensures r == Selectors(values, tags)
  {
    r := [];
    for i := 0 to |values|
      invariant |r| == i && forall k :: 0 <= k < i ==> r[k] == WithGenerated(values[k], tags)
    {
      var value := values[i];
      if TagOf(value) == "telegram-auto" || TagOf(value) == "default-auto" {
        value := Obj(value.fields["outbounds" := Arr(generatedTags + References(value))]);
      }
      r := r + [value];
    }
  }

  /** Selectors are rewritten one by one, then the generated outbounds follow the base ones. */
  method Assemble(base: Object, outbounds: seq<Object>, ghost kept: seq<Entry>) returns (config: Object)
    requires BaseOk(base)
    requires Holds(outbounds, kept)
    ensures config == Config(base, kept)
  {
    var generatedTags, items := Listed(outbounds, kept);
    var values := PrependGenerated(base["outbounds"].items, generatedTags, Tags(kept));
    assert values + items == OutboundsAfter(Outbounds(base), kept);
    config := base["outbounds" := Arr(values + items)];
  }

  method Build(base: Object, subs: seq<Subscription>, w: World) returns (r: Result<Built, BuildError>)
    ensures r.Ok? ==> Generate(base, subs, w) == Some(r.value)
    ensures r.Err? ==> Generate(base, subs, w) == None && Blames(r.error, base, subs, w)
  {
    var tags := ReadBase(base);
    if tags.Err? {
      return Err(tags.error);
    }
    var named := CheckNames(subs);
    if !named {
      return Err(NameCollision);
    }
    var collected := Collect(w, subs, tags.value, base);
    if collected.Err? {
      return Err(collected.error);
    }
    var v := collected.value;
    ghost var kept := Kept(AllEntries(w, subs));
    var config := Assemble(base, v.outbounds, kept);
    r := Ok(Built(config, |v.outbounds|, v.warnings, v.skipped));
  }
}
