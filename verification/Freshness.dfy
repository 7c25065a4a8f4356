/** When a catalog snapshot may be used. Times are Unix seconds, durations nanoseconds. */
module Freshness {
  import opened Wrappers

  const LIMIT := 50
  const SECOND := 1_000_000_000

  datatype SnapshotNode = SnapshotNode(uri: string, lastSuccess: int, schemaVersion: int)

  /** A node may be absent in the decoded message. */
  datatype Snapshot = Snapshot(id: string, profile: string, createdAt: int, validUntil: int,
      nodes: seq<Option<SnapshotNode>>)

  predicate NodeFresh(node: Option<SnapshotNode>, age: int, now: int) {
    && node.Some?
    && node.value.schemaVersion == 1
    && node.value.uri != ""
    && 0 < node.value.lastSuccess <= now
    && node.value.lastSuccess >= now - age
  }

  predicate ValidSnapshot(s: Option<Snapshot>, maxAge: int, now: int) {
    && maxAge >= SECOND && s.Some?
    && var age := maxAge / SECOND;
       && s.value.id != "" && s.value.profile == "server"
       && 0 < |s.value.nodes| <= LIMIT
       && 0 < s.value.createdAt <= now && s.value.createdAt >= now - age
       && s.value.validUntil > now && s.value.validUntil > s.value.createdAt
       && forall i :: 0 <= i < |s.value.nodes| ==> NodeFresh(s.value.nodes[i], age, now)
  }

  method CheckSnapshot(s: Option<Snapshot>, maxAge: int, now: int) returns (ok: bool)
    ensures ok == ValidSnapshot(s, maxAge, now)
  {
    if maxAge < SECOND || s.None? || s.value.id == "" || s.value.profile != "server" || |s.value.nodes| == 0
      || |s.value.nodes| > LIMIT {
      return false;
    }
    var age := maxAge / SECOND;
    var created, until := s.value.createdAt, s.value.validUntil;
    if created <= 0 || created > now || created < now - age || until <= now || until <= created {
      return false;
    }
    for i := 0 to |s.value.nodes|
      invariant forall k :: 0 <= k < i ==> NodeFresh(s.value.nodes[k], age, now)
    {
      var node := s.value.nodes[i];
      if node.None? || node.value.schemaVersion != 1 || node.value.uri == "" || node.value.lastSuccess <= 0
         || node.value.lastSuccess > now || node.value.lastSuccess < now - age {
        return false;
      }
    }
    return true;
  }

  // ---- the times at which a snapshot is valid --------------------------------

  function Max(a: int, b: int): int {
    if a < b then b else a
  }

  function Min(a: int, b: int): int {
    if a < b then a else b
  }

  /** The part of validity that no clock can change. */
  predicate WellMade(s: Snapshot) {
    && s.id != "" && s.profile == "server" && 0 < |s.nodes| <= 50
    && 0 < s.createdAt < s.validUntil
    && forall i :: 0 <= i < |s.nodes| ==> NodeWellMade(s.nodes[i])
  }

  predicate NodeWellMade(node: Option<SnapshotNode>) {
    node.Some? && node.value.schemaVersion == 1 && node.value.uri != "" && node.value.lastSuccess > 0
  }

  /** The first second at which everything in the snapshot has happened. */
  function NotBefore(created: int, nodes: seq<Option<SnapshotNode>>): int
    requires forall i :: 0 <= i < |nodes| ==> nodes[i].Some?
  {
    if nodes == [] then created
    else Max(nodes[|nodes| - 1].value.lastSuccess, NotBefore(created, nodes[..|nodes| - 1]))
  }

  /** The last second at which nothing in the snapshot is too old or expired. */
  function NotAfter(last: int, nodes: seq<Option<SnapshotNode>>, age: int): int
    requires forall i :: 0 <= i < |nodes| ==> nodes[i].Some?
  {
    if nodes == [] then last
    else Min(nodes[|nodes| - 1].value.lastSuccess + age, NotAfter(last, nodes[..|nodes| - 1], age))
  }

  lemma {:induction false} WindowOfNodes(created: int, last: int, nodes: seq<Option<SnapshotNode>>, age: int, now: int)
    requires forall i :: 0 <= i < |nodes| ==> nodes[i].Some? && NodeWellMade(nodes[i])
    ensures NotBefore(created, nodes) <= now <= NotAfter(last, nodes, age) <==>
              created <= now <= last && forall i :: 0 <= i < |nodes| ==> NodeFresh(nodes[i], age, now)
  {
    if nodes != [] {
      var n := |nodes| - 1;
      WindowOfNodes(created, last, nodes[..n], age, now);
      assert NodeFresh(nodes[n], age, now) <==> nodes[n].value.lastSuccess <= now <= nodes[n].value.lastSuccess + age;
      assert forall i :: 0 <= i < n ==> nodes[..n][i] == nodes[i];
    }
  }

  /** A snapshot is valid during one interval, possibly empty, and at no other time. */
  lemma ValidityIsAnInterval(s: Snapshot, maxAge: int, now: int)
    ensures ValidSnapshot(Some(s), maxAge, now) <==>
      && maxAge >= 1_000_000_000
      && WellMade(s)
      && var age := maxAge / 1_000_000_000;
         NotBefore(s.createdAt, s.nodes) <= now <= NotAfter(Min(s.validUntil - 1, s.createdAt + age), s.nodes, age)
  {
    if maxAge >= SECOND && WellMade(s) {
      var age := maxAge / SECOND;
      WindowOfNodes(s.createdAt, Min(s.validUntil - 1, s.createdAt + age), s.nodes, age, now);
    } else if ValidSnapshot(Some(s), maxAge, now) {
      assert forall i :: 0 <= i < |s.nodes| ==> NodeFresh(s.nodes[i], maxAge / SECOND, now) && NodeWellMade(s.nodes[i]);
    }
  }

  /** Checking before and after validation vouches for all the time in between. */
  lemma ValidInBetween(s: Option<Snapshot>, maxAge: int, first: int, last: int, t: int)
    requires ValidSnapshot(s, maxAge, first) && ValidSnapshot(s, maxAge, last) && first <= t <= last
    ensures ValidSnapshot(s, maxAge, t)
  {
    ValidityIsAnInterval(s.value, maxAge, first);
    ValidityIsAnInterval(s.value, maxAge, last);
    ValidityIsAnInterval(s.value, maxAge, t);
  }
}
