/**
 Go slices with their backing arrays, after the section "Appending to and copying slices"
 of the Go specification: `append` writes in place while the capacity lasts and moves to a
 new array otherwise. All slices here start at the front of their array.
 */
module Slices {
  import opened Generation

  datatype Slice<T> = Slice(data: array<T>, len: nat)

  predicate Fits<T>(s: Slice<T>) {
    s.len <= s.data.Length
  }

  function View<T>(s: Slice<T>): seq<T>
    requires Fits(s)
    reads s.data
  {
    s.data[..s.len]
  }

  /** `make([]T, 0, capacity)`; the nil slice when the capacity is 0. */
  method Make<T(0)>(capacity: nat) returns (r: Slice<T>)
    ensures Fits(r) && r.len == 0 && r.data.Length == capacity && fresh(r.data)
  {
    var data := new T[capacity];
    r := Slice(data, 0);
  }

  method Append<T(0)>(s: Slice<T>, more: seq<T>) returns (r: Slice<T>)
    requires Fits(s)
    modifies s.data
    ensures Fits(r) && View(r) == old(View(s)) + more
    ensures s.len + |more| <= s.data.Length ==>
              r.data == s.data && forall i :: 0 <= i < s.data.Length && !(s.len <= i < s.len + |more|) ==>
                s.data[i] == old(s.data[i])
    ensures s.len + |more| > s.data.Length ==> fresh(r.data) && s.data[..] == old(s.data[..])
  {
    var need := s.len + |more|;
    var data := s.data;
    if need > s.data.Length {
      var capacity :| capacity >= need;
      data := new T[capacity];
      forall i | 0 <= i < s.len {
        data[i] := s.data[i];
      }
    }
    forall i | 0 <= i < |more| {
      data[s.len + i] := more[i];
    }
    r := Slice(data, need);
    assert data[..need] == old(s.data[..s.len]) + more;
  }

  // ---- the selectors share one slice of generated tags ------------------------

  class Outbound {
    const tag: string
    var references: Slice<string>

    constructor (tag: string, references: Slice<string>)
      ensures this.tag == tag && this.references == references
    {
      this.tag, this.references := tag, references;
    }
  }

  method FillTags(tags: seq<string>) returns (generated: Slice<string>)
    ensures fresh(generated.data) && Fits(generated) && generated.data.Length == generated.len == |tags|
              && View(generated) == tags
  {
    var data := new string[|tags|];
    for i := 0 to |tags|
      invariant data[..i] == tags[..i]
    {
      data[i] := tags[i];
    }
    generated := Slice(data, |tags|);
    assert data[..] == tags;
  }

  /**
   Every selector is given the generated tags followed by its own references, although all
   of them append to the same slice: its capacity is used up, so no append can reach what
   another selector holds. Arrays that existed before are left alone.
   */
  method PrependToSelectors(outbounds: seq<Outbound>, tags: seq<string>)
    requires forall i :: 0 <= i < |outbounds| ==> Fits(outbounds[i].references)
    requires forall i, j :: 0 <= i < j < |outbounds| ==> outbounds[i] != outbounds[j]
    modifies outbounds
    ensures forall i :: 0 <= i < |outbounds| ==> Fits(outbounds[i].references)
    ensures forall i :: 0 <= i < |outbounds| ==>
              View(outbounds[i].references) ==
                if outbounds[i].tag in SELECTORS then tags + old(View(outbounds[i].references))
                  else old(View(outbounds[i].references))
    ensures forall i :: 0 <= i < |outbounds| && outbounds[i].tag !in SELECTORS ==>
              outbounds[i].references == old(outbounds[i].references)
  {
    var generated := FillTags(tags);
    for k := 0 to |outbounds|
      invariant generated.data[..] == tags
      invariant forall i :: k <= i < |outbounds| ==> outbounds[i].references == old(outbounds[i].references)
      invariant forall i :: 0 <= i < k && outbounds[i].tag !in SELECTORS ==>
                outbounds[i].references == old(outbounds[i].references)
      invariant forall i :: 0 <= i < k ==> Fits(outbounds[i].references)
      invariant forall i :: 0 <= i < k && outbounds[i].tag in SELECTORS ==>
                  View(outbounds[i].references) == tags + old(View(outbounds[i].references))
    {
      var o := outbounds[k];
      if o.tag == "telegram-auto" || o.tag == "default-auto" {
        var combined := Append(generated, View(o.references));
        o.references := combined;
      }
    }
  }

  // ---- replacing a subscription ----------------------------------------------

  /** The array made for the filtered list has room for all of it and one more, so it never moves. */
  method Filter(subs: seq<Subscription>, name: string) returns (filtered: Slice<Subscription>)
    ensures Fits(filtered) && fresh(filtered.data) && filtered.len < filtered.data.Length
    ensures View(filtered) == Others(subs, name)
  {
    filtered := Make<Subscription>(|subs| + 1);
    for i := 0 to |subs|
      invariant Fits(filtered) && fresh(filtered.data) && filtered.len <= i && filtered.data.Length == |subs| + 1
      invariant View(filtered) == Others(subs[..i], name)
    {
      assert subs[..i + 1][..i] == subs[..i];
      if subs[i].name != name {
        filtered := Append(filtered, [subs[i]]);
      }
    }
    assert subs[..|subs|] == subs;
  }

  /**
   The saved copy is the list as it was, also after the new list has been built; the array
   the state was decoded into is not written to.
   */
  method ReplaceSubscription(state: Slice<Subscription>, add: Subscription)
    returns (previous: Slice<Subscription>, next: Slice<Subscription>)
    requires Fits(state)
    ensures Fits(previous) && Fits(next)
    ensures View(previous) == View(state)
    ensures View(next) == Replaced(View(state), add)
    ensures fresh(previous.data) && fresh(next.data) && previous.data != next.data
  {
    var nothing := Make<Subscription>(0);
    previous := Append(nothing, View(state));
    var filtered := Filter(View(state), add.name);
    next := Append(filtered, [add]);
  }
}
