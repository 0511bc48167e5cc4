/** The two network builders: random links until every station can reach every other, or a line. */
module Routes {
  import opened Graphs
  import opened Warshall

  ghost predicate Symmetric(e: Edges) {
    forall i, j :: (i, j) in e ==> (j, i) in e
  }

  ghost predicate Irreflexive(e: Edges) {
    forall i, j :: (i, j) in e ==> i != j
  }

  // Links that can be driven both ways between different stations of 0..n.
  ghost predicate IsNetwork(e: Edges, n: nat) {
    Within(e, n) && Symmetric(e) && Irreflexive(e)
  }

  // ----- what one draw does

  function Link(e: Edges, d: (nat, nat)): Edges {
    if d.0 == d.1 || d in e then e else e + {d, (d.1, d.0)}
  }

  function Linked(draws: seq<(nat, nat)>): Edges {
    if draws == [] then {} else Link(Linked(draws[..|draws| - 1]), draws[|draws| - 1])
  }

  /** Two stations are linked exactly when they differ and a draw has named them, in either order. */
  lemma {:induction false} LinkedIff(draws: seq<(nat, nat)>, i: nat, j: nat)
    ensures (i, j) in Linked(draws) <==> i != j && ((i, j) in draws || (j, i) in draws)
  {
    if draws != [] {
      var init, d := draws[..|draws| - 1], draws[|draws| - 1];
      LinkedIff(init, i, j);
      LinkedIff(init, d.0, d.1);
      LinkedIff(init, d.1, d.0);
      assert draws == init + [d];
    }
  }

  ghost predicate InRange(draws: seq<(nat, nat)>, n: nat) {
    forall d :: d in draws ==> d.0 < n && d.1 < n
  }

  lemma {:induction false} LinkedIsNetwork(draws: seq<(nat, nat)>, n: nat)
    requires InRange(draws, n)
    ensures IsNetwork(Linked(draws), n)
  {
    if draws != [] {
      LinkedIsNetwork(draws[..|draws| - 1], n);
    }
  }

  function AllPairs(n: nat): Edges {
    set i: nat, j: nat | i < n && j < n && i != j :: (i, j)
  }

  /** Every draw that is not passed over lowers the number of links still missing. */
  lemma FreshDrawLowersMissing(e: Edges, d: (nat, nat), n: nat)
    requires IsNetwork(e, n) && d.0 < n && d.1 < n && d.0 != d.1 && d !in e
    ensures IsNetwork(Link(e, d), n) && |AllPairs(n) - Link(e, d)| == |AllPairs(n) - e| - 2
  {
    var before, back := AllPairs(n) - e, (d.1, d.0);
    assert back !in e;
    assert AllPairs(n) - Link(e, d) == before - {d} - {back};
    assert d in before && back in before - {d};
  }

  lemma {:induction false} LinkedHasEveryDraw(draws: seq<(nat, nat)>, k: nat)
    requires k < |draws| && draws[k].0 != draws[k].1
    ensures draws[k] in Linked(draws) && (draws[k].1, draws[k].0) in Linked(draws)
    decreases |draws|
  {
    var init := draws[..|draws| - 1];
    if k < |draws| - 1 {
      LinkedHasEveryDraw(init, k);
    } else if draws[k] in Linked(init) {
      BothWays(init, draws[k]);
    }
  }

  lemma {:induction false} BothWays(draws: seq<(nat, nat)>, d: (nat, nat))
    requires d in Linked(draws)
    ensures (d.1, d.0) in Linked(draws)
  {
    var init := draws[..|draws| - 1];
    if d in Linked(init) {
      BothWays(init, d);
    }
  }

  // ----- graphs that are accepted

  lemma TwoSteps(e: Edges, i: nat, j: nat, k: nat)
    requires (i, j) in e && (j, k) in e
    ensures Joined(e, i, k)
  {
    var p := [i, j, k];
    assert Step(e, p, 0) && Step(e, p, 1);
    assert Links(e, p, i, k);
  }

  lemma OneStep(e: Edges, i: nat, j: nat)
    requires (i, j) in e
    ensures Joined(e, i, j)
  {
    assert Step(e, [i, j], 0);
    assert Links(e, [i, j], i, j);
  }

  /** The complete graph on two or more stations is connected, so the random builder can always stop. */
  lemma CompleteIsConnected(e: Edges, n: nat)
    requires n >= 2 && AllPairs(n) <= e
    ensures Connected(e, n)
  {
    forall i: nat, j: nat | i < n && j < n ensures Joined(e, i, j) {
      if i != j {
        assert (i, j) in AllPairs(n);
        OneStep(e, i, j);
      } else {
        var k := if i == 0 then 1 else 0;
        assert (i, k) in AllPairs(n) && (k, i) in AllPairs(n);
        TwoSteps(e, i, k, i);
      }
    }
  }

  /** In a connected network every station has a link, so its headway of 60 / nn is defined. */
  lemma ConnectedHasNeighbour(e: Edges, n: nat, i: nat)
    requires IsNetwork(e, n) && Connected(e, n) && i < n
    ensures exists j: nat :: j < n && j != i && (i, j) in e
  {
    assert Joined(e, i, i);
    var p :| Links(e, p, i, i);
    assert Step(e, p, 0);
    assert p[1] < n && (i, p[1]) in e;
  }

  // ----- the random builder

  // The links the do-while loop has made when it stops after some of the draws.
  ghost predicate StoppedAt(draws: seq<(nat, nat)>, used: nat, n: nat) {
    1 <= used <= |draws| && Connected(Linked(draws[..used]), n)
    && forall m :: 1 <= m < used ==> !Connected(Linked(draws[..m]), n)
  }

  method BuildRoutes(adj: array2<bool>, w: array2<bool>, n: nat, draws: seq<(nat, nat)>) returns (done: bool, used: nat)
    requires Square(adj, n) && Square(w, n) && adj != w && InRange(draws, n) && EdgesOf(adj) == {}
    modifies adj, w
    ensures used <= |draws| && EdgesOf(adj) == Linked(draws[..used]) && IsNetwork(EdgesOf(adj), n)
    ensures done <==> StoppedAt(draws, used, n)
    ensures !done ==> used == |draws| && forall m :: 1 <= m <= |draws| ==> !Connected(Linked(draws[..m]), n)
  {
    hide Connected, IsNetwork;
    done, used := false, 0;
    while used < |draws| && !done
      invariant used <= |draws| && EdgesOf(adj) == Linked(draws[..used])
      invariant done ==> StoppedAt(draws, used, n)
      invariant !done ==> forall m :: 1 <= m <= used ==> !Connected(Linked(draws[..m]), n)
      decreases |draws| - used, !done
    {
      var (i, j) := draws[used];
      assert draws[used] in draws;
      assert draws[..used + 1][..used] == draws[..used];
      TakeDraw(adj, n, i, j);
      used := used + 1;
      done := Warshall.Warshall(adj, w, n);
    }
    LinkedIsNetwork(draws[..used], n);
  }

  // Set a link unless it is a loop or there already.
  method TakeDraw(adj: array2<bool>, n: nat, i: nat, j: nat)
    requires Square(adj, n) && i < n && j < n
    modifies adj
    ensures EdgesOf(adj) == Link(old(EdgesOf(adj)), (i, j))
  {
    if i == j || adj[i, j] {
      assert i == j || (i, j) in EdgesOf(adj);
      return;
    }
    assert (i, j) !in EdgesOf(adj);
    SetLink(adj, n, i, j);
  }

  method SetLink(adj: array2<bool>, n: nat, i: nat, j: nat)
    requires Square(adj, n) && i < n && j < n
    modifies adj
    ensures EdgesOf(adj) == old(EdgesOf(adj)) + {(i, j), (j, i)}
  {
    adj[i, j] := true;
    adj[j, i] := true;
    assert forall a: nat, b: nat :: a < n && b < n ==>
      (adj[a, b] <==> old(adj[a, b]) || (a, b) == (i, j) || (a, b) == (j, i));
  }

  /** Draws that name every pair are enough for the random builder to have stopped. */
  lemma EnoughDrawsConnect(draws: seq<(nat, nat)>, n: nat)
    requires n >= 2
    requires forall i: nat, j: nat :: i < j < n ==> (i, j) in draws || (j, i) in draws
    ensures Connected(Linked(draws), n)
  {
    forall d | d in AllPairs(n) ensures d in Linked(draws) {
      var (i, j) := d;
      var lo, hi := if i < j then i else j, if i < j then j else i;
      assert lo < hi < n;
      var k :| 0 <= k < |draws| && (draws[k] == (lo, hi) || draws[k] == (hi, lo));
      LinkedHasEveryDraw(draws, k);
    }
    CompleteIsConnected(Linked(draws), n);
  }

  // ----- the linear builder

  function Chain(n: nat): Edges {
    set i: nat, j: nat | i < n && j < n && (j == i + 1 || i == j + 1) :: (i, j)
  }

  method BuildLinearRoutes(adj: array2<bool>, n: nat)
    requires Square(adj, n) && EdgesOf(adj) == {}
    modifies adj
    ensures EdgesOf(adj) == Chain(n)
  {
    var i := 0;
    while i < n - 1
      invariant 0 <= i && (n > 0 ==> i <= n - 1)
      invariant EdgesOf(adj) == Chain(if n == 0 then 0 else i + 1)
    {
      SetLink(adj, n, i, i + 1);
      i := i + 1;
    }
    assert n == 0 ==> Chain(0) == {};
  }

  lemma ChainJoinsUp(n: nat, i: nat, j: nat)
    requires i < j < n
    ensures Joined(Chain(n), i, j) && Joined(Chain(n), j, i)
  {
    var up, down := seq(j - i + 1, m requires 0 <= m => i + m), seq(j - i + 1, m requires 0 <= m <= j => j - m);
    forall m | 0 <= m < |up| - 1 ensures Step(Chain(n), up, m) && Step(Chain(n), down, m) {
      assert up[m + 1] == up[m] + 1 && down[m + 1] + 1 == down[m];
    }
    assert Links(Chain(n), up, i, j) && Links(Chain(n), down, j, i);
  }

  /** The line of the linear builder is a connected network too. */
  lemma ChainIsConnected(n: nat)
    requires n >= 2
    ensures IsNetwork(Chain(n), n) && Connected(Chain(n), n)
  {
    forall i: nat, j: nat | i < n && j < n ensures Joined(Chain(n), i, j) {
      if i < j {
        ChainJoinsUp(n, i, j);
      } else if j < i {
        ChainJoinsUp(n, j, i);
      } else {
        var k := if i == 0 then 1 else i - 1;
        assert (i, k) in Chain(n) && (k, i) in Chain(n);
        TwoSteps(Chain(n), i, k, i);
      }
    }
  }

  // The stations that have a link with this one.
  function Beside(e: Edges, n: nat, i: nat): set<nat> {
    set j: nat | j < n && (i, j) in e
  }

  /** The line has n - 1 links, one more for every station, and joins a station only with the one before and after. */
  lemma {:induction false} ChainIsALine(n: nat)
    requires n >= 1
    ensures |Chain(n)| == 2 * (n - 1)
    ensures forall i: nat :: i < n ==>
      Beside(Chain(n), n, i) == (if i > 0 then {i - 1} else {}) + (if i + 1 < n then {i + 1} else {})
  {
    if n == 1 {
      assert Chain(1) == {};
    } else {
      ChainIsALine(n - 1);
      assert Chain(n) == Chain(n - 1) + {(n - 2, n - 1), (n - 1, n - 2)};
      assert (n - 2, n - 1) !in Chain(n - 1) && (n - 1, n - 2) !in Chain(n - 1);
    }
  }
}
