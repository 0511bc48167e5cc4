/** Walks in a directed graph on 0..n, and the facts about them Warshall's algorithm rests on. */
module Graphs {

  type Edges = set<(nat, nat)>

  ghost predicate Within(e: Edges, n: nat) {
    forall i, j :: (i, j) in e ==> i < n && j < n
  }

  ghost predicate Step(e: Edges, p: seq<nat>, m: nat) {
    m + 1 < |p| && (p[m], p[m + 1]) in e
  }

  // A walk takes at least one edge.
  ghost predicate IsWalk(e: Edges, p: seq<nat>) {
    |p| >= 2 && forall m :: 0 <= m < |p| - 1 ==> Step(e, p, m)
  }

  // The stations strictly inside the walk are all below k.
  ghost predicate Inside(p: seq<nat>, k: nat) {
    forall m :: 0 < m < |p| - 1 ==> p[m] < k
  }

  ghost predicate Links(e: Edges, p: seq<nat>, i: nat, j: nat) {
    IsWalk(e, p) && p[0] == i && p[|p| - 1] == j
  }

  ghost predicate JoinedBelow(e: Edges, k: nat, i: nat, j: nat) {
    exists p :: Links(e, p, i, j) && Inside(p, k)
  }

  ghost predicate Joined(e: Edges, i: nat, j: nat) {
    exists p :: Links(e, p, i, j)
  }

  // Every ordered pair is joined, a station with itself included.
  ghost predicate Connected(e: Edges, n: nat) {
    forall i, j :: 0 <= i < n && 0 <= j < n ==> Joined(e, i, j)
  }

  lemma EdgeJoins(e: Edges, i: nat, j: nat)
    ensures (i, j) in e <==> JoinedBelow(e, 0, i, j)
  {
    if (i, j) in e {
      assert Step(e, [i, j], 0);
      assert Links(e, [i, j], i, j) && Inside([i, j], 0);
    }
    if JoinedBelow(e, 0, i, j) {
      var p :| Links(e, p, i, j) && Inside(p, 0);
      var beforeLast := p[|p| - 2];
      assert |p| == 2;
      assert Step(e, p, 0);
    }
  }

  lemma WalkPart(e: Edges, p: seq<nat>, a: nat, b: nat)
    requires IsWalk(e, p) && a < b < |p|
    ensures IsWalk(e, p[a..b + 1])
  {
    var r := p[a..b + 1];
    forall m | 0 <= m < |r| - 1 ensures Step(e, r, m) {
      assert Step(e, p, a + m);
    }
  }

  lemma JoinWalks(e: Edges, p: seq<nat>, r: seq<nat>)
    requires IsWalk(e, p) && IsWalk(e, r) && p[|p| - 1] == r[0]
    ensures Links(e, p + r[1..], p[0], r[|r| - 1])
  {
    var s := p + r[1..];
    forall m | 0 <= m < |s| - 1 ensures Step(e, s, m) {
      if m < |p| - 1 {
        assert Step(e, p, m);
      } else {
        assert Step(e, r, m - (|p| - 1));
      }
    }
  }

  // Two walks that meet at k make one that stays below any bound above k.
  lemma JoinAt(e: Edges, n: nat, k: nat, i: nat, j: nat)
    requires JoinedBelow(e, n, i, k) && JoinedBelow(e, n, k, j) && k < n
    ensures JoinedBelow(e, n, i, j)
  {
    var p :| Links(e, p, i, k) && Inside(p, n);
    var r :| Links(e, r, k, j) && Inside(r, n);
    JoinWalks(e, p, r);
    var s := p + r[1..];
    forall m | 0 < m < |s| - 1 ensures s[m] < n {
      if m < |p| - 1 {
        assert s[m] == p[m];
      } else if m == |p| - 1 {
        assert s[m] == k;
      } else {
        assert s[m] == r[m - (|p| - 1)];
      }
    }
  }

  lemma {:induction false} UpToFirstVisit(e: Edges, k: nat, p: seq<nat>)
    requires IsWalk(e, p) && Inside(p, k + 1) && p[|p| - 1] == k
    ensures JoinedBelow(e, k, p[0], k)
    decreases |p|
  {
    if Inside(p, k) {
      assert Links(e, p, p[0], k);
    } else {
      var m :| 0 < m < |p| - 1 && p[m] >= k;
      WalkPart(e, p, 0, m);
      var r := p[0..m + 1];
      assert forall x :: 0 < x < |r| - 1 ==> r[x] == p[x];
      UpToFirstVisit(e, k, r);
    }
  }

  lemma {:induction false} FromLastVisit(e: Edges, k: nat, p: seq<nat>)
    requires IsWalk(e, p) && Inside(p, k + 1) && p[0] == k
    ensures JoinedBelow(e, k, k, p[|p| - 1])
    decreases |p|
  {
    if Inside(p, k) {
      assert Links(e, p, k, p[|p| - 1]);
    } else {
      var m :| 0 < m < |p| - 1 && p[m] >= k;
      WalkPart(e, p, m, |p| - 1);
      var r := p[m..|p| - 1 + 1];
      assert forall x :: 0 < x < |r| - 1 ==> r[x] == p[m + x];
      FromLastVisit(e, k, r);
    }
  }

  // A walk through stations up to k goes through k or does not.
  lemma SplitAt(e: Edges, k: nat, i: nat, j: nat)
    requires JoinedBelow(e, k + 1, i, j)
    ensures JoinedBelow(e, k, i, j) || (JoinedBelow(e, k, i, k) && JoinedBelow(e, k, k, j))
  {
    var p :| Links(e, p, i, j) && Inside(p, k + 1);
    if !Inside(p, k) {
      var m :| 0 < m < |p| - 1 && p[m] >= k;
      WalkPart(e, p, 0, m);
      WalkPart(e, p, m, |p| - 1);
      var r, s := p[0..m + 1], p[m..|p| - 1 + 1];
      assert forall x :: 0 < x < |r| - 1 ==> r[x] == p[x];
      assert forall x :: 0 < x < |s| - 1 ==> s[x] == p[m + x];
      UpToFirstVisit(e, k, r);
      FromLastVisit(e, k, s);
    }
  }

  lemma AllBelow(e: Edges, n: nat, i: nat, j: nat)
    requires Within(e, n)
    ensures JoinedBelow(e, n, i, j) <==> Joined(e, i, j)
  {
    if Joined(e, i, j) {
      var p :| Links(e, p, i, j);
      forall m | 0 < m < |p| - 1 ensures p[m] < n {
        assert Step(e, p, m);
      }
    }
  }
}
