/** Exactly when generation succeeds, in terms of the base config, the list and the feeds. */
module GenerationExact {
  import opened Wrappers
  import opened Json
  import opened NodeUri
  import opened Names
  import opened Generation
  import opened GenerationFacts

  // ---- exactly when generation succeeds --------------------------------------

  /** A base config that can be extended, in plain terms. */
  ghost predicate Extendable(base: Object) {
    && "outbounds" in base && base["outbounds"].Arr?
    && var items := base["outbounds"].items;
       && (forall i :: 0 <= i < |items| ==> items[i].Obj?)
       && forall i, j, tag :: 0 <= i < j < |items| && HasTag(items[i], tag) ==> !HasTag(items[j], tag)
  }

  predicate HasTag(outbound: Value, tag: string) {
    tag != "" && outbound.Obj? && "tag" in outbound.fields && outbound.fields["tag"] == Str(tag)
  }

  /** Some line of the feed parses. */
  predicate Usable(w: World, sub: Subscription) {
    sub.url in w.feeds && exists i :: 0 <= i < |w.Lines(sub)| && Parse(w.Split(w.Lines(sub)[i])).Ok?
  }

  /** No line that parses has a tag of the base or of another such line. */
  ghost predicate TagsApart(base: Object, w: World, subs: seq<Subscription>) {
    && (forall e, i :: IsEntry(e, w, subs) && 0 <= i < |Outbounds(base)| ==> !HasTag(Outbounds(base)[i], e.tag))
    && (forall e, f :: IsEntry(e, w, subs) && IsEntry(f, w, subs) && e != f ==> e.tag != f.tag)
  }

  lemma HasItsTag(outbound: Value, tag: string)
    ensures HasTag(outbound, tag) <==> tag != "" && TagOf(outbound) == tag
  {
  }

  lemma ExtendableIsBaseOk(base: Object)
    ensures Extendable(base) <==> BaseOk(base)
  {
    if "outbounds" in base && base["outbounds"].Arr? {
      TagsDifferPlainly(base["outbounds"].items);
    }
  }

  lemma TagsDifferPlainly(items: seq<Value>)
    ensures (forall i, j, tag :: 0 <= i < j < |items| && HasTag(items[i], tag) ==> !HasTag(items[j], tag))
            <==> NonEmptyTagsDiffer(items)
  {
    forall i | 0 <= i < |items|
      ensures forall tag :: HasTag(items[i], tag) <==> tag != "" && TagOf(items[i]) == tag {
      forall tag: string {
        HasItsTag(items[i], tag);
      }
    }
    if forall i, j, tag :: 0 <= i < j < |items| && HasTag(items[i], tag) ==> !HasTag(items[j], tag) {
      forall i, j | 0 <= i < j < |items| && TagOf(items[i]) != "" ensures TagOf(items[i]) != TagOf(items[j]) {
        assert HasTag(items[i], TagOf(items[i]));
      }
    }
  }

  lemma UsableIsProviderOk(w: World, provider: nat, sub: Subscription)
    ensures Usable(w, sub) <==> ProviderOk(w, provider, sub)
  {
    var lines, es := w.Lines(sub), Entries(w, provider, sub.name, w.Lines(sub));
    EntriesOfLines(w, provider, sub.name, lines);
    if es != [] {
      assert es[0] in es;
      assert Reads(es[0], w, provider, sub.name, lines[es[0].index - 1]);
    }
    if i :| 0 <= i < |lines| && Parse(w.Split(lines[i])).Ok? {
      var uri := w.Split(lines[i]);
      var e := Entry(provider, i + 1, Tag(sub.name, Fragment(uri), i + 1), Parse(uri).value);
      assert OfLines(e, w, provider, sub.name, lines);
    }
  }

  lemma BaseTagsApart(values: seq<Value>, tag: string)
    requires tag != ""
    ensures tag !in BaseTags(values) <==> forall i :: 0 <= i < |values| ==> !HasTag(values[i], tag)
  {
    forall i | 0 <= i < |values| ensures HasTag(values[i], tag) <==> TagOf(values[i]) == tag {
      HasItsTag(values[i], tag);
    }
  }

  lemma DistinctEntriesAreOrdered(es: seq<Entry>)
    requires Ordered(es)
    ensures (forall i, j :: 0 <= i < j < |es| ==> es[i].tag != es[j].tag)
            <==> forall e, f :: e in es && f in es && e != f ==> e.tag != f.tag
  {
    if forall e, f :: e in es && f in es && e != f ==> e.tag != f.tag {
      forall i, j | 0 <= i < j < |es| ensures es[i].tag != es[j].tag {
        assert es[i] in es && es[j] in es && Before(es[i], es[j]);
      }
    }
  }

  lemma TagsApartIsTagsOk(base: Object, w: World, subs: seq<Subscription>)
    ensures TagsApart(base, w, subs) <==> TagsOk(Outbounds(base), AllEntries(w, subs))
  {
    var es := AllEntries(w, subs);
    EntriesAreTheLines(w, subs);
    EntriesAreOrdered(w, subs);
    LineTagsAreNonEmpty(w, subs);
    DistinctEntriesAreOrdered(es);
    forall e | e in es
      ensures e.tag !in BaseTags(Outbounds(base))
              <==> forall i :: 0 <= i < |Outbounds(base)| ==> !HasTag(Outbounds(base)[i], e.tag) {
      BaseTagsApart(Outbounds(base), e.tag);
    }
  }

  /** Generation succeeds exactly under these conditions on the base, the list and the feeds. */
  lemma GeneratesExactly(base: Object, subs: seq<Subscription>, w: World)
    ensures Generate(base, subs, w).Some? <==>
              && Extendable(base)
              && (forall i :: 0 <= i < |subs| ==> subs[i].name != "" && Usable(w, subs[i]))
              && (forall i, j :: 0 <= i < j < |subs| ==> Sanitize(subs[i].name) != Sanitize(subs[j].name))
              && TagsApart(base, w, subs)
  {
    ExtendableIsBaseOk(base);
    TagsApartIsTagsOk(base, w, subs);
    forall p | 0 <= p < |subs| ensures Usable(w, subs[p]) <==> ProviderOk(w, p + 1, subs[p]) {
      UsableIsProviderOk(w, p + 1, subs[p]);
    }
  }

  // ---- replacing a subscription ------------------------------------------------

  /** Entries of the name go, the others stay where they are. */
  lemma {:induction false} OthersOfConcat(a: seq<Subscription>, b: seq<Subscription>, name: string)
    ensures Others(a + b, name) == Others(a, name) + Others(b, name)
  {
    if b == [] {
      assert a + b == a;
    } else {
      OthersOfConcat(a, b[..|b| - 1], name);
      assert (a + b)[..|a + b| - 1] == a + b[..|b| - 1];
    }
  }

  /** An added subscription takes the last place, and the place of its name is closed up. */
  lemma ReplacedClosesUp(front: seq<Subscription>, former: Subscription, back: seq<Subscription>, add: Subscription)
    requires former.name == add.name
    requires forall i :: 0 <= i < |front| ==> front[i].name != add.name
    requires forall i :: 0 <= i < |back| ==> back[i].name != add.name
    ensures Replaced(front + [former] + back, add) == front + back + [add]
  {
    OthersOfConcat(front + [former], back, add.name);
    OthersOfConcat(front, [former], add.name);
    OthersOfFresh(front, add.name);
    OthersOfFresh(back, add.name);
    OthersOfOne(former, add.name);
    assert front + [] == front;
  }

  lemma OthersOfOne(sub: Subscription, name: string)
    ensures Others([sub], name) == if sub.name == name then [] else [sub]
  {
    assert [sub][..0] == [];
  }
}
