/** buildrandomtimetables.c: Warshall's algorithm, overwriting w while reading it. */
module Warshall {
  import opened Graphs

  ghost predicate Square(m: array2<bool>, n: nat) {
    m.Length0 == n && m.Length1 == n
  }

  ghost function EdgesOf(m: array2<bool>): (e: Edges)
    reads m
    ensures Within(e, if m.Length0 >= m.Length1 then m.Length0 else m.Length1)
  {
    set i: nat, j: nat | i < m.Length0 && j < m.Length1 && m[i, j] :: (i, j)
  }

  // True entries are real walks; walks below k are entered.
  ghost predicate Sound(e: Edges, w: array2<bool>, n: nat)
    requires Square(w, n)
    reads w
  {
    forall i, j :: 0 <= i < n && 0 <= j < n && w[i, j] ==> JoinedBelow(e, n, i, j)
  }

  ghost predicate Complete(e: Edges, w: array2<bool>, n: nat, k: nat)
    requires Square(w, n)
    reads w
  {
    forall i, j :: 0 <= i < n && 0 <= j < n && JoinedBelow(e, k, i, j) ==> w[i, j]
  }

  // Row i has been completed for k + 1 up to column j.
  ghost predicate RowDone(e: Edges, w: array2<bool>, n: nat, k: nat, i: nat, j: nat)
    requires Square(w, n) && i < n && j <= n
    reads w
  {
    forall c :: 0 <= c < j && JoinedBelow(e, k + 1, i, c) ==> w[i, c]
  }

  method CopyMatrix(adj: array2<bool>, w: array2<bool>, n: nat)
    requires Square(adj, n) && Square(w, n) && adj != w
    modifies w
    ensures forall i, j :: 0 <= i < n && 0 <= j < n ==> w[i, j] == adj[i, j]
  {
    for i := 0 to n
      invariant forall a, b :: 0 <= a < i && 0 <= b < n ==> w[a, b] == adj[a, b]
    {
      for j := 0 to n
        invariant forall a, b :: 0 <= a < i && 0 <= b < n ==> w[a, b] == adj[a, b]
        invariant forall b :: 0 <= b < j ==> w[i, b] == adj[i, b]
      {
        w[i, j] := adj[i, j];
      }
    }
  }

  // One row of one phase.
  method UpdateRow(ghost e: Edges, w: array2<bool>, n: nat, k: nat, i: nat)
    requires Square(w, n) && k < n && i < n && Sound(e, w, n) && Complete(e, w, n, k)
    modifies w
    ensures Sound(e, w, n) && Complete(e, w, n, k) && RowDone(e, w, n, k, i, n)
    ensures forall a, b :: 0 <= a < n && 0 <= b < n && old(w[a, b]) ==> w[a, b]
  {
    for j := 0 to n
      invariant Sound(e, w, n) && Complete(e, w, n, k) && RowDone(e, w, n, k, i, j)
      invariant forall a, b :: 0 <= a < n && 0 <= b < n && old(w[a, b]) ==> w[a, b]
    {
      if JoinedBelow(e, k + 1, i, j) {
        SplitAt(e, k, i, j);
      }
      if !w[i, j] {
        if w[i, k] && w[k, j] {
          JoinAt(e, n, k, i, j);
        }
        w[i, j] := w[i, k] && w[k, j];
      }
    }
  }

  method Phase(ghost e: Edges, w: array2<bool>, n: nat, k: nat)
    requires Square(w, n) && k < n && Sound(e, w, n) && Complete(e, w, n, k)
    modifies w
    ensures Sound(e, w, n) && Complete(e, w, n, k + 1)
  {
    for i := 0 to n
      invariant Sound(e, w, n) && Complete(e, w, n, k)
      invariant forall a :: 0 <= a < i ==> RowDone(e, w, n, k, a, n)
    {
      label before:
      UpdateRow(e, w, n, k, i);
      forall a | 0 <= a < i ensures RowDone(e, w, n, k, a, n) {
        assert old@before(RowDone(e, w, n, k, a, n));
      }
    }
    forall i, j | 0 <= i < n && 0 <= j < n && JoinedBelow(e, k + 1, i, j) ensures w[i, j] {
      assert RowDone(e, w, n, k, i, n);
    }
  }

  /** In spite of overwriting w as it goes: w ends as the transitive closure of adj, and the result
      is true exactly when every ordered pair is joined by a walk. */
  method Warshall(adj: array2<bool>, w: array2<bool>, n: nat) returns (connected: bool)
    requires Square(adj, n) && Square(w, n) && adj != w
    modifies w
    ensures forall i, j :: 0 <= i < n && 0 <= j < n ==> (w[i, j] <==> Joined(EdgesOf(adj), i, j))
    ensures connected <==> Connected(EdgesOf(adj), n)
  {
    ghost var e := EdgesOf(adj);
    CopyMatrix(adj, w, n);
    forall i: nat, j: nat | i < n && j < n ensures w[i, j] <==> JoinedBelow(e, 0, i, j) {
      EdgeJoins(e, i, j);
    }
    forall i: nat, j: nat | i < n && j < n && w[i, j] ensures JoinedBelow(e, n, i, j) {
      Weaken(e, 0, n, i, j);
    }
    for k := 0 to n
      invariant EdgesOf(adj) == e && Sound(e, w, n) && Complete(e, w, n, k)
    {
      Phase(e, w, n, k);
    }
    forall i: nat, j: nat | i < n && j < n ensures w[i, j] <==> Joined(e, i, j) {
      AllBelow(e, n, i, j);
    }
    connected := AllTrue(w, n);
  }

  lemma Weaken(e: Edges, k: nat, n: nat, i: nat, j: nat)
    requires JoinedBelow(e, k, i, j) && k <= n
    ensures JoinedBelow(e, n, i, j)
  {
    var p :| Links(e, p, i, j) && Inside(p, k);
    assert Inside(p, n);
  }

  method AllTrue(w: array2<bool>, n: nat) returns (all: bool)
    requires Square(w, n)
    ensures all <==> forall i, j :: 0 <= i < n && 0 <= j < n ==> w[i, j]
  {
    for i := 0 to n
      invariant forall a, b :: 0 <= a < i && 0 <= b < n ==> w[a, b]
    {
      for j := 0 to n
        invariant forall a, b :: 0 <= a < i && 0 <= b < n ==> w[a, b]
        invariant forall b :: 0 <= b < j ==> w[i, b]
      {
        if !w[i, j] {
          return false;
        }
      }
    }
    return true;
  }
}
