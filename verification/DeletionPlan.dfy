/** The tenant clean-up script: which foreign keys to null, in what order to delete, and the deletion itself. */
module DeletionPlan {
  import opened Collections
  import opened Graphs
  import Tarjan

  type Column = nat

  datatype ForeignKey = ForeignKey(child: Table, parent: Table, cols: seq<Column>)

  // The tables to clean (those carrying business_id and not protected), every foreign key
  // declared on them, and their nullable columns.
  datatype Schema = Schema(tables: seq<Table>, declared: seq<ForeignKey>, nullable: set<(Table, Column)>) {

    ghost predicate Valid() {
      && (forall i, j :: 0 <= i < j < |tables| ==> tables[i] != tables[j])
      && (forall fk :: fk in declared ==> fk.child in tables && fk.cols != [])
    }

    // Keys that point at another table of the clean-up.
    ghost predicate Scoped(fk: ForeignKey) { fk in declared && fk.parent in tables }

    predicate CanNull(fk: ForeignKey) { forall c :: c in fk.cols ==> (fk.child, c) in nullable }

    ghost function Graph(): Graph {
      map t | t in tables ::
        set fk | fk in declared && fk.parent in tables && fk.child == t && fk.parent != t :: fk.parent
    }

    // Both ends lie on one dependency cycle (or are the same table).
    ghost predicate Cyclic(fk: ForeignKey) { Mutual(Graph(), fk.child, fk.parent) }

    // A key no plan can cope with: some column of its own table is NOT NULL.
    ghost predicate Blocks(fk: ForeignKey) {
      Scoped(fk) && fk.child != fk.parent && Cyclic(fk) && exists c :: c in fk.cols && (fk.child, c) !in nullable
    }

    ghost predicate Nulled(fk: ForeignKey) {
      Scoped(fk) && Cyclic(fk) && forall c :: c in fk.cols ==> (fk.child, c) in nullable
    }
  }

  datatype Plan =
    | Plan(order: seq<Table>, nullify: set<(Table, Column)>)
    | CannotBreakCycle(fk: ForeignKey)
    | Unresolvable(tables: set<Table>)

  ghost predicate Before(order: seq<Table>, a: Table, b: Table) {
    exists i, j :: 0 <= i < j < |order| && order[i] == a && order[j] == b
  }

  // What makes a plan right: every table once, no key it cannot cope with, exactly the
  // nullable keys on cycles nulled, and every other key deleted child first.
  ghost predicate Correct(s: Schema, p: Plan)
    requires p.Plan?
  {
    && Distinct(p.order) && Elems(p.order) == Elems(s.tables)
    && (forall fk :: !s.Blocks(fk))
    && (forall t, c :: (t, c) in p.nullify <==> exists fk :: s.Nulled(fk) && fk.child == t && c in fk.cols)
    && (forall fk :: s.Scoped(fk) && !s.Cyclic(fk) ==> Before(p.order, fk.child, fk.parent))
  }

  /** Acyclic between components: some remaining table is referenced by no other remaining one. */
  lemma SomeTableReady(g: Graph, edges: Graph, remaining: set<Table>)
    requires remaining != {}
    requires forall a, b :: a in edges && b in edges[a] ==> b in Succ(g, a) && !Mutual(g, a, b)
    ensures exists t :: t in remaining && forall a :: a in edges && t in edges[a] ==> a !in remaining
  {
    var t := FewestAncestors(g, remaining);
    forall a | a in edges && t in edges[a]
      ensures a !in remaining
    {
      ReachEdge(g, a, t);
      if a in remaining {
        forall x | x in Ancestors(g, remaining, a) ensures x in Ancestors(g, remaining, t) {
          ReachTrans(g, x, a, t);
        }
        ReachSelf(g, t);
        assert t in Ancestors(g, remaining, t) - Ancestors(g, remaining, a);
        SubsetSmaller(Ancestors(g, remaining, a), Ancestors(g, remaining, t));
        assert false;
      }
    }
  }

  ghost function Ancestors(g: Graph, s: set<Table>, t: Table): set<Table> {
    set x | x in s && Reach(g, x, t)
  }

  lemma SubsetSmaller(a: set<Table>, b: set<Table>)
    requires a < b
    ensures |a| < |b|
  {
    var x :| x in b && x !in a;
    assert |b - a| >= 1 by { assert x in b - a; }
    assert a + (b - a) == b;
  }

  lemma {:induction false} FewestAncestors(g: Graph, s: set<Table>, among: set<Table> := s) returns (t: Table)
    requires {} < among <= s
    ensures t in among
    ensures forall x :: x in among ==> |Ancestors(g, s, t)| <= |Ancestors(g, s, x)|
    decreases among
  {
    t :| t in among;
    if among != {t} {
      var u := FewestAncestors(g, s, among - {t});
      if |Ancestors(g, s, u)| < |Ancestors(g, s, t)| {
        t := u;
      }
    }
  }

  /** One round of the ordering loop's sorting: the members of s, ascending. */
  method Sorted(s: set<Table>) returns (r: seq<Table>)
    ensures Elems(r) == s
    ensures forall i, j :: 0 <= i < j < |r| ==> r[i] < r[j]
  {
    r := [];
    var rest := s;
    while rest != {}
      invariant Elems(r) == s - rest && rest <= s
      invariant forall i, j :: 0 <= i < j < |r| ==> r[i] < r[j]
      invariant forall i, x :: 0 <= i < |r| && x in rest ==> r[i] < x
      decreases rest
    {
      var m := Least(rest);
      assert Elems(r + [m]) == Elems(r) + {m};
      r, rest := r + [m], rest - {m};
    }
  }

  /** The list of foreign keys that stay inside the clean-up. */
  method ScopedKeys(s: Schema) returns (fks: seq<ForeignKey>)
    ensures forall fk :: fk in fks <==> s.Scoped(fk)
  {
    fks := [];
    for i := 0 to |s.declared|
      invariant forall fk :: fk in fks <==> fk in s.declared[..i] && fk.parent in s.tables
    {
      assert s.declared[..i + 1] == s.declared[..i] + [s.declared[i]];
      if s.declared[i].parent in s.tables {
        fks := fks + [s.declared[i]];
      }
    }
    assert s.declared[..|s.declared|] == s.declared;
  }

  /** The adjacency sets handed to the component search. */
  method BuildGraph(s: Schema, fks: seq<ForeignKey>) returns (graph: Graph)
    requires s.Valid() && forall fk :: fk in fks <==> s.Scoped(fk)
    ensures graph == s.Graph()
  {
    graph := map t | t in s.tables :: {};
    for i := 0 to |fks|
      invariant graph.Keys == Elems(s.tables)
      invariant forall t, p :: t in graph ==>
        (p in graph[t] <==> exists fk :: fk in fks[..i] && fk.child == t && fk.parent == p && p != t)
    {
      var fk := fks[i];
      ghost var before := graph;
      assert s.Scoped(fk);
      if fk.child != fk.parent {
        graph := graph[fk.child := graph[fk.child] + {fk.parent}];
      }
      assert fks[..i + 1] == fks[..i] + [fk];
    }
    assert fks[..|fks|] == fks;
    GraphEdges(s, graph, fks);
  }

  lemma GraphEdges(s: Schema, graph: Graph, fks: seq<ForeignKey>)
    requires forall fk :: fk in fks <==> s.Scoped(fk)
    requires graph.Keys == Elems(s.tables)
    requires forall t, p :: t in graph ==>
      (p in graph[t] <==> exists fk :: fk in fks && fk.child == t && fk.parent == p && p != t)
    ensures graph == s.Graph()
  {
    forall t | t in graph ensures graph[t] == s.Graph()[t] {
      forall p ensures p in graph[t] <==> p in s.Graph()[t] {
        if p in s.Graph()[t] {
          var fk :| fk in s.declared && fk.parent in s.tables && fk.child == t && fk.parent != t && fk.parent == p;
          assert s.Scoped(fk);
        }
        if p in graph[t] {
          var fk :| fk in fks && fk.child == t && fk.parent == p && p != t;
          assert s.Scoped(fk);
        }
      }
    }
  }

  ghost predicate ColumnsRight(s: Schema, fks: seq<ForeignKey>, nullify: set<(Table, Column)>) {
    forall t, c :: (t, c) in nullify <==> exists fk :: fk in fks && s.Nulled(fk) && fk.child == t && c in fk.cols
  }

  ghost predicate EdgesRight(s: Schema, fks: seq<ForeignKey>, edges: Graph) {
    && (forall a :: a in edges ==> a in s.tables)
    && (forall a, b :: a in edges && b in edges[a] ==>
          exists fk :: fk in fks && fk.child == a && fk.parent == b && !s.Cyclic(fk))
    && (forall fk :: fk in fks && !s.Cyclic(fk) ==> fk.child in edges && fk.parent in edges[fk.child])
  }

  ghost predicate Classified(s: Schema, fks: seq<ForeignKey>, nullify: set<(Table, Column)>, edges: Graph) {
    (forall fk :: fk in fks ==> !s.Blocks(fk)) && ColumnsRight(s, fks, nullify) && EdgesRight(s, fks, edges)
  }

  function ColumnsOf(fk: ForeignKey): set<(Table, Column)> { set c | c in fk.cols :: (fk.child, c) }

  function WithEdge(edges: Graph, fk: ForeignKey): Graph {
    edges[fk.child := Succ(edges, fk.child) + {fk.parent}]
  }

  lemma ClassifyStep(s: Schema, fks: seq<ForeignKey>, fk: ForeignKey, nullify: set<(Table, Column)>, edges: Graph)
    requires s.Valid() && s.Scoped(fk) && Classified(s, fks, nullify, edges)
    ensures fk.child == fk.parent ==> s.Cyclic(fk)
    ensures s.Nulled(fk) ==> Classified(s, fks + [fk], nullify + ColumnsOf(fk), edges)
    ensures !s.Cyclic(fk) ==> Classified(s, fks + [fk], nullify, WithEdge(edges, fk))
    ensures fk.child == fk.parent && !s.Nulled(fk) ==> Classified(s, fks + [fk], nullify, edges)
  {
    ReachSelf(s.Graph(), fk.child);
    if s.Nulled(fk) { ClassifyNulled(s, fks, fk, nullify, edges); }
    if !s.Cyclic(fk) { ClassifyEdge(s, fks, fk, nullify, edges); }
    if fk.child == fk.parent && !s.Nulled(fk) { ClassifySelf(s, fks, fk, nullify, edges); }
  }

  lemma ClassifyNulled(s: Schema, fks: seq<ForeignKey>, fk: ForeignKey, nullify: set<(Table, Column)>, edges: Graph)
    requires s.Nulled(fk) && Classified(s, fks, nullify, edges)
    ensures Classified(s, fks + [fk], nullify + ColumnsOf(fk), edges)
  {
    var more := fks + [fk];
    assert fk in more && forall k :: k in fks ==> k in more;
  }

  lemma ClassifyEdge(s: Schema, fks: seq<ForeignKey>, fk: ForeignKey, nullify: set<(Table, Column)>, edges: Graph)
    requires s.Valid() && s.Scoped(fk) && !s.Cyclic(fk) && Classified(s, fks, nullify, edges)
    ensures Classified(s, fks + [fk], nullify, WithEdge(edges, fk))
  {
    var more := fks + [fk];
    assert fk in more && forall k :: k in fks ==> k in more;
    AddEdge(s, fks, fk, edges);
  }

  lemma AddEdge(s: Schema, fks: seq<ForeignKey>, fk: ForeignKey, edges: Graph)
    requires s.Valid() && s.Scoped(fk) && !s.Cyclic(fk) && EdgesRight(s, fks, edges)
    ensures EdgesRight(s, fks + [fk], WithEdge(edges, fk))
  {
    var more := fks + [fk];
    assert fk in more && forall k :: k in fks ==> k in more;
  }

  lemma ClassifySelf(s: Schema, fks: seq<ForeignKey>, fk: ForeignKey, nullify: set<(Table, Column)>, edges: Graph)
    requires s.Cyclic(fk) && fk.child == fk.parent && !s.Nulled(fk) && Classified(s, fks, nullify, edges)
    ensures Classified(s, fks + [fk], nullify, edges)
  {
    var more := fks + [fk];
    assert fk in more && forall k :: k in fks ==> k in more;
  }

  /** Splits the keys into columns to null and edges to respect; stops at a key it can neither null nor respect. */
  method Classify(s: Schema, fks: seq<ForeignKey>, compOf: map<Table, Table>)
    returns (bad: seq<ForeignKey>, nullify: set<(Table, Column)>, edges: Graph)
    requires s.Valid() && forall fk :: fk in fks ==> s.Scoped(fk)
    requires compOf.Keys == Elems(s.tables)
    requires forall a, b :: a in s.tables && b in s.tables ==> (compOf[a] == compOf[b] <==> Mutual(s.Graph(), a, b))
    ensures bad == [] ==> Classified(s, fks, nullify, edges)
    ensures bad != [] ==> s.Blocks(bad[0])
  {
    bad, nullify, edges := [], {}, map[];
    for i := 0 to |fks|
      invariant Classified(s, fks[..i], nullify, edges)
    {
      var fk := fks[i];
      assert fks[..i + 1] == fks[..i] + [fk];
      assert s.Scoped(fk);
      ClassifyStep(s, fks[..i], fk, nullify, edges);
      if fk.child == fk.parent || compOf[fk.child] == compOf[fk.parent] {
        if s.CanNull(fk) {
          nullify := nullify + ColumnsOf(fk);
        } else if fk.child != fk.parent {
          bad := [fk];
          return;
        }
      } else {
        edges := WithEdge(edges, fk);
      }
    }
    assert fks[..|fks|] == fks;
  }

  lemma BeforeGrows(order: seq<Table>, more: seq<Table>, a: Table, b: Table)
    requires Before(order, a, b) || (a in order && b in more)
    ensures Before(order + more, a, b)
  {
    var all := order + more;
    if Before(order, a, b) {
      var i, j :| 0 <= i < j < |order| && order[i] == a && order[j] == b;
      assert all[i] == a && all[j] == b;
    } else {
      var i :| 0 <= i < |order| && order[i] == a;
      var j :| 0 <= j < |more| && more[j] == b;
      assert all[i] == a && all[|order| + j] == b;
    }
  }

  ghost predicate Respected(order: seq<Table>, edges: Graph) {
    forall a, b :: a in edges && b in edges[a] && b in order ==> Before(order, a, b)
  }

  lemma DistinctAppend(a: seq<Table>, b: seq<Table>)
    requires Distinct(a) && Distinct(b) && Elems(a) !! Elems(b)
    ensures Distinct(a + b)
  {
    forall i, j | 0 <= i < |a| && 0 <= j < |b| ensures a[i] != b[j] {
      assert a[i] in Elems(a) && b[j] in Elems(b);
    }
  }

  lemma RoundKeeps(tables: set<Table>, order: seq<Table>, edges: Graph, remaining: set<Table>, ready: seq<Table>)
    requires Distinct(order) && Elems(order) == tables - remaining && remaining <= tables
    requires Respected(order, edges) && edges.Keys <= tables
    requires Distinct(ready) && Elems(ready) <= remaining
    requires forall a, b :: b in Elems(ready) && a in edges && b in edges[a] ==> a !in remaining
    ensures Distinct(order + ready) && Elems(order + ready) == tables - (remaining - Elems(ready))
    ensures Respected(order + ready, edges)
  {
    DistinctAppend(order, ready);
    assert Elems(order + ready) == Elems(order) + Elems(ready);
    forall a, b | a in edges && b in edges[a] && b in order + ready
      ensures Before(order + ready, a, b)
    {
      if b !in order {
        assert b in Elems(ready);
        assert a in Elems(order);
      }
      BeforeGrows(order, ready, a, b);
    }
  }

  /** Repeatedly takes, in name order, every table no remaining table references. */
  method Layer(tables: seq<Table>, edges: Graph, ghost g: Graph) returns (order: seq<Table>, stuck: set<Table>)
    requires Distinct(tables) && edges.Keys <= Elems(tables)
    requires forall a, b :: a in edges && b in edges[a] ==> b in Succ(g, a) && !Mutual(g, a, b)
    ensures stuck == {}
    ensures Distinct(order) && Elems(order) == Elems(tables) && Respected(order, edges)
  {
    var all := set t | t in tables;
    var referencedBy := map p | p in all :: set c | c in edges && p in edges[c];
    order, stuck := [], {};
    var remaining := all;
    while remaining != {}
      invariant remaining <= all
      invariant Distinct(order) && Elems(order) == all - remaining && Respected(order, edges)
      decreases remaining
    {
      var readySet := set t | t in remaining && referencedBy[t] * remaining == {};
      var ready := Sorted(readySet);
      SomeReady(g, edges, referencedBy, remaining, readySet);
      if ready == [] {
        stuck := remaining;
        return;
      }
      RoundKeeps(all, order, edges, remaining, ready);
      order := order + ready;
      remaining := remaining - readySet;
    }
  }

  lemma SomeReady(g: Graph, edges: Graph, referencedBy: Graph, remaining: set<Table>, ready: set<Table>)
    requires remaining != {} && remaining <= referencedBy.Keys
    requires forall p :: p in referencedBy ==> referencedBy[p] == set c | c in edges && p in edges[c]
    requires forall a, b :: a in edges && b in edges[a] ==> b in Succ(g, a) && !Mutual(g, a, b)
    requires ready == set t | t in remaining && referencedBy[t] * remaining == {}
    ensures ready != {}
    ensures forall a, b :: b in ready && a in edges && b in edges[a] ==> a !in remaining
  {
    SomeTableReady(g, edges, remaining);
    var t :| t in remaining && forall a :: a in edges && t in edges[a] ==> a !in remaining;
    assert t in ready;
    forall a, b | b in ready && a in edges && b in edges[a] ensures a !in remaining {
      assert a in referencedBy[b] && referencedBy[b] * remaining == {};
      assert a !in referencedBy[b] * remaining;
    }
  }

  lemma NullifyNullable(s: Schema, p: Plan)
    requires p.Plan? && Correct(s, p)
    ensures p.nullify <= s.nullable
  {
    forall tc | tc in p.nullify ensures tc in s.nullable {
      assert (tc.0, tc.1) in p.nullify;
      var fk :| s.Nulled(fk) && fk.child == tc.0 && tc.1 in fk.cols;
    }
  }

  /**
   * The whole of `_plan`: it refuses exactly the schemas in which a NOT NULL foreign key joins two
   * different tables of one cycle, it never gets stuck, and otherwise its plan is correct.
   */
  method MakePlan(s: Schema) returns (p: Plan)
    requires s.Valid()
    ensures !p.Unresolvable?
    ensures p.CannotBreakCycle? <==> exists fk :: s.Blocks(fk)
    ensures p.CannotBreakCycle? ==> s.Blocks(p.fk)
    ensures p.Plan? ==> Correct(s, p) && p.nullify <= s.nullable
  {
    var fks := ScopedKeys(s);
    var graph := BuildGraph(s, fks);
    var compOf := Tarjan.FindComponents(s.tables, graph);
    var bad, nullify, edges := Classify(s, fks, compOf);
    if bad != [] {
      return CannotBreakCycle(bad[0]);
    }
    EdgesAcyclic(s, fks, nullify, edges);
    var order, stuck := Layer(s.tables, edges, graph);
    if stuck != {} {
      return Unresolvable(stuck);
    }
    PlanCorrect(s, fks, nullify, edges, order);
    NullifyNullable(s, Plan(order, nullify));
    return Plan(order, nullify);
  }

  lemma EdgesAcyclic(s: Schema, fks: seq<ForeignKey>, nullify: set<(Table, Column)>, edges: Graph)
    requires s.Valid() && Classified(s, fks, nullify, edges) && forall fk :: fk in fks <==> s.Scoped(fk)
    ensures edges.Keys <= Elems(s.tables)
    ensures forall a, b :: a in edges && b in edges[a] ==> b in Succ(s.Graph(), a) && !Mutual(s.Graph(), a, b)
  {
    forall a, b | a in edges && b in edges[a]
      ensures b in Succ(s.Graph(), a) && !Mutual(s.Graph(), a, b)
    {
      var fk :| fk in fks && fk.child == a && fk.parent == b && !s.Cyclic(fk);
      assert s.Scoped(fk);
      ReachSelf(s.Graph(), a);
    }
  }

  lemma PlanCorrect(s: Schema, fks: seq<ForeignKey>, nullify: set<(Table, Column)>, edges: Graph, order: seq<Table>)
    requires s.Valid() && Classified(s, fks, nullify, edges) && forall fk :: fk in fks <==> s.Scoped(fk)
    requires Distinct(order) && Elems(order) == Elems(s.tables) && Respected(order, edges)
    ensures Correct(s, Plan(order, nullify))
  {
    forall fk | s.Scoped(fk) && !s.Cyclic(fk)
      ensures Before(order, fk.child, fk.parent)
    {
      assert fk in fks;
      assert fk.parent in Elems(order);
    }
  }
}
