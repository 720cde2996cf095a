/** Finite directed graphs over table names, and reachability along their edges. */
module Graphs {

  // A table, named by the position of its name in alphabetical order.
  type Table = nat

  // Adjacency sets; a table without an entry has no outgoing edge.
  type Graph = map<Table, set<Table>>

  function Succ(g: Graph, v: Table): set<Table> {
    if v in g then g[v] else {}
  }

  ghost predicate ReachIn(g: Graph, a: Table, b: Table, n: nat)
    decreases n
  {
    if n == 0 then a == b
    else exists c :: c in Succ(g, a) && ReachIn(g, c, b, n - 1)
  }

  ghost predicate Reach(g: Graph, a: Table, b: Table) {
    exists n: nat :: ReachIn(g, a, b, n)
  }

  /** Each reaches the other: the two tables lie on a common dependency cycle, or are equal. */
  ghost predicate Mutual(g: Graph, a: Table, b: Table) {
    Reach(g, a, b) && Reach(g, b, a)
  }

  lemma ReachSelf(g: Graph, a: Table)
    ensures Reach(g, a, a)
  {
    assert ReachIn(g, a, a, 0);
  }

  lemma ReachEdge(g: Graph, a: Table, b: Table)
    requires b in Succ(g, a)
    ensures Reach(g, a, b)
  {
    assert ReachIn(g, b, b, 0);
    assert ReachIn(g, a, b, 1);
  }

  lemma {:induction false} ReachInTrans(g: Graph, a: Table, b: Table, c: Table, m: nat, n: nat)
    requires ReachIn(g, a, b, m) && ReachIn(g, b, c, n)
    ensures ReachIn(g, a, c, m + n)
    decreases m
  {
    if m > 0 {
      var x :| x in Succ(g, a) && ReachIn(g, x, b, m - 1);
      ReachInTrans(g, x, b, c, m - 1, n);
    }
  }

  lemma ReachTrans(g: Graph, a: Table, b: Table, c: Table)
    requires Reach(g, a, b) && Reach(g, b, c)
    ensures Reach(g, a, c)
  {
    var m: nat :| ReachIn(g, a, b, m);
    var n: nat :| ReachIn(g, b, c, n);
    ReachInTrans(g, a, b, c, m, n);
  }

  ghost predicate Closed(g: Graph, s: set<Table>) {
    forall v, w :: v in s && w in Succ(g, v) ==> w in s
  }

  /** A set of tables closed under the edges is never left. */
  lemma {:induction false} ClosedReachIn(g: Graph, s: set<Table>, a: Table, b: Table, n: nat)
    requires Closed(g, s) && a in s && ReachIn(g, a, b, n)
    ensures b in s
    decreases n
  {
    if n > 0 {
      var c :| c in Succ(g, a) && ReachIn(g, c, b, n - 1);
      ClosedReachIn(g, s, c, b, n - 1);
    }
  }

  lemma ClosedReach(g: Graph, s: set<Table>, a: Table, b: Table)
    requires Closed(g, s) && a in s && Reach(g, a, b)
    ensures b in s
  {
    var n: nat :| ReachIn(g, a, b, n);
    ClosedReachIn(g, s, a, b, n);
  }
}
