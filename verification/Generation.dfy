/** What the manager generates from a base config, a list of subscriptions and their feeds. */
module Generation {
  import opened Wrappers
  import opened Json
  import opened NodeUri
  import opened Names
  import FeedBody

  datatype Subscription = Subscription(name: string, url: string)

  function Others(subs: seq<Subscription>, name: string): seq<Subscription> {
    if subs == [] then [] else
    var last := subs[|subs| - 1];
    Others(subs[..|subs| - 1], name) + if last.name != name then [last] else []
  }

  /** The list after adding a subscription: it replaces any of the same name, and comes last. */
  function Replaced(subs: seq<Subscription>, add: Subscription): seq<Subscription> {
    Others(subs, add.name) + [add]
  }

  /**
   What the outside answers during one generation: a feed for each URL that can be
   fetched, and the split form of each raw URI that `net/url` can parse.
   */
  datatype World = World(feeds: map<string, string>, uris: map<string, Uri>) {
    function Split(raw: string): Uri {
      if raw in uris then uris[raw] else Malformed
    }

    function Lines(subscription: Subscription): seq<string> {
      if subscription.url in feeds then FeedBody.BodyLines(feeds[subscription.url]) else []
    }
  }

  /** A line that parsed, with the 1-based numbers of its provider and of the line in it. */
  datatype Entry = Entry(provider: nat, index: nat, tag: string, node: Node)

  datatype Warning = Warning(provider: nat, index: nat, error: ParseError)

  // ---- reading the feeds ----------------------------------------------------

  function LineEntry(w: World, provider: nat, name: string, raw: string, index: nat): seq<Entry> {
    match Parse(w.Split(raw))
    case Ok(node) => [Entry(provider, index, Tag(name, Fragment(w.Split(raw)), index), node)]
    case Err(_) => []
  }

  function LineWarning(w: World, provider: nat, raw: string, index: nat): seq<Warning> {
    match Parse(w.Split(raw))
    case Ok(_) => []
    case Err(e) => [Warning(provider, index, e)]
  }

  function Entries(w: World, provider: nat, name: string, lines: seq<string>): seq<Entry> {
    if lines == [] then []
    else Entries(w, provider, name, lines[..|lines| - 1]) + LineEntry(w, provider, name, lines[|lines| - 1], |lines|)
  }

  function Warnings(w: World, provider: nat, lines: seq<string>): seq<Warning> {
    if lines == [] then []
    else Warnings(w, provider, lines[..|lines| - 1]) + LineWarning(w, provider, lines[|lines| - 1], |lines|)
  }

  /** Every parsed line, provider by provider. */
  function AllEntries(w: World, subs: seq<Subscription>): seq<Entry> {
    if subs == [] then [] else
    var last := subs[|subs| - 1];
    AllEntries(w, subs[..|subs| - 1]) + Entries(w, |subs|, last.name, w.Lines(last))
  }

  function AllWarnings(w: World, subs: seq<Subscription>): seq<Warning> {
    if subs == [] then [] else
    AllWarnings(w, subs[..|subs| - 1]) + Warnings(w, |subs|, w.Lines(subs[|subs| - 1]))
  }

  function LineCount(w: World, subs: seq<Subscription>): nat {
    if subs == [] then 0 else LineCount(w, subs[..|subs| - 1]) + |w.Lines(subs[|subs| - 1])|
  }

  // ---- first occurrences ----------------------------------------------------

  function Nodes(entries: seq<Entry>): (nodes: seq<Node>)
    ensures |nodes| == |entries| && forall i :: 0 <= i < |nodes| ==> nodes[i] == entries[i].node
  {
    seq(|entries|, i requires 0 <= i < |entries| => entries[i].node)
  }

  function Tags(entries: seq<Entry>): (tags: seq<string>)
    ensures |tags| == |entries| && forall i :: 0 <= i < |tags| ==> tags[i] == entries[i].tag
  {
    seq(|entries|, i requires 0 <= i < |entries| => entries[i].tag)
  }

  /** The positions at which a node appears for the first time. */
  function Firsts(nodes: seq<Node>): (positions: seq<nat>)
    ensures forall k :: 0 <= k < |positions| ==> positions[k] < |nodes|
  {
    if nodes == [] then [] else
    var n := |nodes| - 1;
    Firsts(nodes[..n]) + if nodes[n] in nodes[..n] then [] else [n]
  }

  function Select(entries: seq<Entry>, positions: seq<nat>): (selected: seq<Entry>)
    requires forall k :: 0 <= k < |positions| ==> positions[k] < |entries|
    ensures |selected| == |positions| && forall k :: 0 <= k < |selected| ==> selected[k] == entries[positions[k]]
  {
    seq(|positions|, k requires 0 <= k < |positions| => entries[positions[k]])
  }

  function Kept(entries: seq<Entry>): seq<Entry> {
    Select(entries, Firsts(Nodes(entries)))
  }

  // ---- the base config ------------------------------------------------------

  const SELECTORS := {"telegram-auto", "default-auto"}

  function TagOf(outbound: Value): string {
    if outbound.Obj? && "tag" in outbound.fields && outbound.fields["tag"].Str? then outbound.fields["tag"].text else ""
  }

  function BaseTags(values: seq<Value>): set<string> {
    set i | 0 <= i < |values| :: TagOf(values[i])
  }

  predicate NonEmptyTagsDiffer(values: seq<Value>) {
    forall i, j :: 0 <= i < j < |values| && TagOf(values[i]) != "" ==> TagOf(values[i]) != TagOf(values[j])
  }

  predicate BaseOk(base: Object) {
    && "outbounds" in base && base["outbounds"].Arr?
    && (forall i :: 0 <= i < |base["outbounds"].items| ==> base["outbounds"].items[i].Obj?)
    && NonEmptyTagsDiffer(base["outbounds"].items)
  }

  function Outbounds(config: Object): seq<Value> {
    if "outbounds" in config && config["outbounds"].Arr? then config["outbounds"].items else []
  }

  // ---- when generation succeeds, and what it yields --------------------------

  predicate NamesOk(subs: seq<Subscription>) {
    && (forall i :: 0 <= i < |subs| ==> subs[i].name != "")
    && (forall i, j :: 0 <= i < j < |subs| ==> Sanitize(subs[i].name) != Sanitize(subs[j].name))
  }

  predicate ProviderOk(w: World, provider: nat, sub: Subscription) {
    sub.url in w.feeds && w.Lines(sub) != [] && Entries(w, provider, sub.name, w.Lines(sub)) != []
  }

  predicate ProvidersOk(w: World, subs: seq<Subscription>, n: nat)
    requires n <= |subs|
  {
    forall p :: 0 <= p < n ==> ProviderOk(w, p + 1, subs[p])
  }

  predicate TagsOk(values: seq<Value>, entries: seq<Entry>) {
    && (forall i :: 0 <= i < |entries| ==> entries[i].tag !in BaseTags(values))
    && (forall i, j :: 0 <= i < j < |entries| ==> entries[i].tag != entries[j].tag)
  }

  predicate Buildable(base: Object, subs: seq<Subscription>, w: World) {
    && BaseOk(base)
    && NamesOk(subs)
    && ProvidersOk(w, subs, |subs|)
    && TagsOk(Outbounds(base), AllEntries(w, subs))
  }

  function References(outbound: Value): seq<Value> {
    if outbound.Obj? && "outbounds" in outbound.fields && outbound.fields["outbounds"].Arr?
      then outbound.fields["outbounds"].items else []
  }

  /** The two automatic selectors try the generated outbounds first. */
  function WithGenerated(outbound: Value, tags: seq<string>): Value {
    if outbound.Obj? && TagOf(outbound) in SELECTORS
    then Obj(outbound.fields["outbounds" := Arr(Strings(tags) + References(outbound))])
    else outbound
  }

  function Selectors(values: seq<Value>, tags: seq<string>): (r: seq<Value>)
    ensures |r| == |values| && forall i :: 0 <= i < |r| ==> r[i] == WithGenerated(values[i], tags)
  {
    seq(|values|, i requires 0 <= i < |values| => WithGenerated(values[i], tags))
  }

  function Items(entries: seq<Entry>): (items: seq<Value>)
    ensures |items| == |entries| && forall i :: 0 <= i < |items| ==>
              items[i] == Obj(Item(entries[i].tag, entries[i].node))
  {
    seq(|entries|, i requires 0 <= i < |entries| => Obj(Item(entries[i].tag, entries[i].node)))
  }

  function OutboundsAfter(values: seq<Value>, kept: seq<Entry>): (r: seq<Value>)
    ensures |r| == |values| + |kept|
  {
    Selectors(values, Tags(kept)) + Items(kept)
  }

  function Config(base: Object, kept: seq<Entry>): Object {
    base["outbounds" := Arr(OutboundsAfter(Outbounds(base), kept))]
  }

  const MAX_WARNINGS := 20

  function Reported(warnings: seq<Warning>): seq<Warning> {
    if |warnings| <= MAX_WARNINGS then warnings else warnings[..MAX_WARNINGS]
  }

  datatype Built = Built(config: Object, nodes: nat, warnings: seq<Warning>, skipped: nat)

  function Generated(base: Object, subs: seq<Subscription>, w: World): Built {
    var kept, warnings := Kept(AllEntries(w, subs)), AllWarnings(w, subs);
    Built(Config(base, kept), |kept|, Reported(warnings), |warnings|)
  }

  function Generate(base: Object, subs: seq<Subscription>, w: World): Option<Built> {
    if Buildable(base, subs, w) then Some(Generated(base, subs, w)) else None
  }
}
