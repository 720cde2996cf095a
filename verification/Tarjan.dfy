/** Tarjan's strongly connected components, as the deletion planner computes them. */
module Tarjan {
  import opened Collections
  import opened Graphs

  // The search state: visit numbers, tables on the stack, finished components, next number.
  datatype Search = Search(index: map<Table, nat>, open: set<Table>, comp: map<Table, Table>, counter: nat)

  ghost predicate Numbered(d: Search) {
    && d.index.Keys == d.open + d.comp.Keys
    && d.open !! d.comp.Keys
    && (forall v :: v in d.index ==> d.index[v] < d.counter)
  }

  // `gray` holds the tables whose visit has begun and not ended.
  ghost predicate Explored(g: Graph, d: Search, gray: set<Table>) {
    && gray <= d.open
    && (forall v, w :: v in d.index && v !in gray && w in Succ(g, v) ==> w in d.index)
  }

  // Every stacked table reaches the tables stacked after it.
  ghost predicate Upward(g: Graph, d: Search)
    requires Numbered(d)
  {
    forall v, w {:trigger Reach(g, v, w)} ::
      v in d.open && w in d.open && d.index[v] <= d.index[w] ==> Reach(g, v, w)
  }

  ghost predicate Below(g: Graph, d: Search, y: Table, x: Table)
  {
    x in d.index && y in d.index && d.index[x] <= d.index[y] && Reach(g, y, x)
  }

  // Every stacked table reaches an unfinished visit at or below it.
  ghost predicate Anchored(g: Graph, d: Search, gray: set<Table>, y: Table) {
    exists x :: x in gray && Below(g, d, y, x)
  }

  ghost predicate Downward(g: Graph, d: Search, gray: set<Table>) {
    forall y {:trigger Anchored(g, d, gray, y)} :: y in d.open ==> Anchored(g, d, gray, y)
  }

  ghost predicate Components(g: Graph, comp: map<Table, Table>) {
    && Closed(g, comp.Keys)
    && (forall v :: v in comp ==> comp[v] in comp)
    && (forall v, w {:trigger Mutual(g, v, w)} :: v in comp && w in comp ==> (comp[v] == comp[w] <==> Mutual(g, v, w)))
  }

  ghost predicate Inv(g: Graph, d: Search, gray: set<Table>) {
    Numbered(d) && Explored(g, d, gray) && Upward(g, d) && Downward(g, d, gray) && Components(g, d.comp)
  }

  function Pushed(d: Search, v: Table): Search {
    Search(d.index[v := d.counter], d.open + {v}, d.comp, d.counter + 1)
  }

  lemma PushReach(g: Graph, d: Search, gray: set<Table>, v: Table, y: Table)
    requires Inv(g, d, gray) && y in d.open
    requires forall x :: x in gray ==> Reach(g, x, v)
    ensures Reach(g, y, v)
  {
    assert Anchored(g, d, gray, y);
    var x :| x in gray && Below(g, d, y, x);
    ReachTrans(g, y, x, v);
  }

  lemma PushUpward(g: Graph, d: Search, gray: set<Table>, v: Table)
    requires Inv(g, d, gray) && v !in d.index
    requires forall x :: x in gray ==> Reach(g, x, v)
    ensures Numbered(Pushed(d, v)) && Upward(g, Pushed(d, v))
  {
    var e := Pushed(d, v);
    ReachSelf(g, v);
    forall x, w | x in e.open && w in e.open && e.index[x] <= e.index[w]
      ensures Reach(g, x, w)
    {
      if w == v && x != v {
        PushReach(g, d, gray, v, x);
      } else if w != v {
        assert x in d.open && w in d.open;
      }
    }
  }

  lemma PushDownward(g: Graph, d: Search, gray: set<Table>, v: Table)
    requires Downward(g, d, gray) && v !in d.index
    ensures Downward(g, Pushed(d, v), gray + {v})
  {
    var e := Pushed(d, v);
    ReachSelf(g, v);
    forall y | y in e.open
      ensures Anchored(g, e, gray + {v}, y)
    {
      if y in d.open {
        assert Anchored(g, d, gray, y);
        var x :| x in gray && Below(g, d, y, x);
        assert x in gray + {v} && Below(g, e, y, x);
      } else {
        assert v in gray + {v} && Below(g, e, v, v);
      }
    }
  }

  lemma PushKeeps(g: Graph, d: Search, gray: set<Table>, v: Table)
    requires Inv(g, d, gray) && v !in d.index
    requires forall x :: x in gray ==> Reach(g, x, v)
    ensures Inv(g, Pushed(d, v), gray + {v})
  {
    PushUpward(g, d, gray, v);
    PushDownward(g, d, gray, v);
  }

  // What `low` promises while v is being visited: it is the number of a stacked table
  // that v reaches, and it bounds every explored edge that leaves the part of the stack
  // from v upwards for the part below.
  ghost predicate LowReach(g: Graph, d: Search, v: Table, low: nat) {
    exists y :: y in d.open && y in d.index && d.index[y] == low && Reach(g, v, y)
  }

  function Segment(d: Search, v: Table): set<Table>
    requires v in d.index && d.open <= d.index.Keys
  {
    set x | x in d.open && d.index[v] <= d.index[x]
  }

  ghost predicate LowEdges(g: Graph, d: Search, seg: set<Table>, old_: set<Table>, low: nat) {
    forall x, w :: x in seg && w in Succ(g, x) && w in old_ ==> w in d.index && low <= d.index[w]
  }

  // All of v's edges are explored and v is the newest unfinished visit.
  ghost predicate Newest(g: Graph, d: Search, gray: set<Table>, v: Table) {
    && v in gray && v in d.index
    && (forall x :: x in gray && x in d.index ==> d.index[x] <= d.index[v])
    && Succ(g, v) <= d.index.Keys
  }

  // The segment from v upwards becomes one component, named after v.
  function Named(d: Search, v: Table): map<Table, Table>
    requires v in d.index && d.open <= d.index.Keys
  {
    map x | x in d.comp.Keys + Segment(d, v) :: if x in Segment(d, v) then v else d.comp[x]
  }

  function Popped(d: Search, v: Table): Search
    requires v in d.index && d.open <= d.index.Keys
  {
    Search(d.index, d.open - Segment(d, v), Named(d, v), d.counter)
  }

  lemma SegmentMutual(g: Graph, d: Search, gray: set<Table>, v: Table, y: Table)
    requires Numbered(d) && gray <= d.open && Upward(g, d) && Downward(g, d, gray)
    requires Newest(g, d, gray, v) && y in Segment(d, v)
    ensures Mutual(g, v, y)
  {
    assert Anchored(g, d, gray, y);
    var x :| x in gray && Below(g, d, y, x);
    assert Reach(g, x, v);
    ReachTrans(g, y, x, v);
  }

  lemma SegmentClosed(g: Graph, d: Search, gray: set<Table>, v: Table)
    requires Numbered(d) && Explored(g, d, gray) && Closed(g, d.comp.Keys)
    requires Newest(g, d, gray, v)
    requires forall x :: x in gray ==> x == v || x !in Segment(d, v)
    requires LowEdges(g, d, Segment(d, v), d.open - Segment(d, v), d.index[v])
    ensures Closed(g, d.comp.Keys + Segment(d, v))
  {
    var seg := Segment(d, v);
    forall x, w | x in d.comp.Keys + seg && w in Succ(g, x)
      ensures w in d.comp.Keys + seg
    {
      if x !in d.comp {
        assert w in d.index;
      }
    }
  }

  lemma NamedComponents(g: Graph, d: Search, v: Table)
    requires Numbered(d) && v in d.open && Components(g, d.comp)
    requires Closed(g, d.comp.Keys + Segment(d, v))
    requires forall y :: y in Segment(d, v) ==> Mutual(g, v, y)
    ensures Components(g, Named(d, v))
  {
    var seg := Segment(d, v);
    var comp := Named(d, v);
    assert comp.Keys == d.comp.Keys + seg;
    forall x, w | x in comp && w in comp
      ensures comp[x] == comp[w] <==> Mutual(g, x, w)
    {
      NamedPair(g, d, v, x, w);
    }
  }

  lemma NamedPair(g: Graph, d: Search, v: Table, x: Table, w: Table)
    requires Numbered(d) && v in d.open && Components(g, d.comp)
    requires x in d.comp.Keys + Segment(d, v) && w in d.comp.Keys + Segment(d, v)
    requires x in Segment(d, v) ==> Mutual(g, v, x)
    requires w in Segment(d, v) ==> Mutual(g, v, w)
    ensures Named(d, v)[x] == Named(d, v)[w] <==> Mutual(g, x, w)
  {
    if x in d.comp && w in d.comp {
    } else if x in d.comp || w in d.comp {
      // A finished component is closed, so it never reaches back into the segment.
      if Mutual(g, x, w) {
        if x in d.comp { ClosedReach(g, d.comp.Keys, x, w); } else { ClosedReach(g, d.comp.Keys, w, x); }
      }
    } else {
      ReachTrans(g, x, v, w);
      ReachTrans(g, w, v, x);
    }
  }

  lemma PoppedNumbered(d: Search, v: Table)
    requires Numbered(d) && v in d.open
    ensures Numbered(Popped(d, v))
  {
  }

  lemma PopDownward(g: Graph, d: Search, gray: set<Table>, v: Table)
    requires Numbered(d) && v in d.open && Downward(g, d, gray)
    ensures Downward(g, Popped(d, v), gray - {v})
  {
    var e := Popped(d, v);
    forall y | y in e.open
      ensures Anchored(g, e, gray - {v}, y)
    {
      assert Anchored(g, d, gray, y);
      var x :| x in gray && Below(g, d, y, x);
      assert x in gray - {v} && Below(g, e, y, x);
    }
  }

  lemma KeepDownward(g: Graph, d: Search, gray: set<Table>, v: Table, low: nat)
    requires Numbered(d) && v in d.open && Downward(g, d, gray)
    requires LowReach(g, d, v, low) && low < d.index[v]
    ensures Downward(g, d, gray - {v})
  {
    var y0 :| y0 in d.open && y0 in d.index && d.index[y0] == low && Reach(g, v, y0);
    assert Anchored(g, d, gray, y0);
    var x0 :| x0 in gray && Below(g, d, y0, x0);
    ReachTrans(g, v, y0, x0);
    forall y | y in d.open
      ensures Anchored(g, d, gray - {v}, y)
    {
      assert Anchored(g, d, gray, y);
      var x :| x in gray && Below(g, d, y, x);
      if x == v {
        ReachTrans(g, y, v, x0);
        assert x0 in gray - {v} && Below(g, d, y, x0);
      } else {
        assert x in gray - {v} && Below(g, d, y, x);
      }
    }
  }

  // e continues the search d: nothing recorded is forgotten, new tables get later numbers.
  ghost predicate Extends(d: Search, e: Search) {
    && (forall x :: x in d.index ==> x in e.index && e.index[x] == d.index[x])
    && (forall x :: x in e.index && x !in d.index ==> d.counter <= e.index[x])
    && d.open <= e.open && d.comp.Keys <= e.comp.Keys
    && d.counter <= e.counter
  }

  lemma ExtendsTrans(d: Search, e: Search, f: Search)
    requires Extends(d, e) && Extends(e, f)
    ensures Extends(d, f)
  {
  }

  // The stack lists `elems` in strictly increasing visit order.
  ghost predicate Ordered(stack: seq<Table>, elems: set<Table>, index: map<Table, nat>) {
    && elems <= index.Keys
    && (forall i :: 0 <= i < |stack| ==> stack[i] in elems)
    && (forall x {:trigger x in stack} :: x in elems ==> x in stack)
    && (forall i, j :: 0 <= i < j < |stack| ==> index[stack[i]] < index[stack[j]])
  }

  ghost function Renamed(comp: map<Table, Table>, s: seq<Table>, v: Table): map<Table, Table> {
    map x | x in comp.Keys + Elems(s) :: if x in s then v else comp[x]
  }

  lemma OrderedDistinct(stack: seq<Table>, elems: set<Table>, index: map<Table, nat>)
    requires Ordered(stack, elems, index)
    ensures Distinct(stack) && elems == Elems(stack)
  {
  }

  lemma TopLeaves(st: seq<Table>, n: nat, comp: map<Table, Table>, v: Table)
    requires Distinct(st) && 0 < n <= |st|
    ensures st[..n][..n - 1] == st[..n - 1]
    ensures Elems(st[..n]) - {st[n - 1]} == Elems(st[..n - 1])
    ensures Renamed(comp, st[n..], v)[st[n - 1] := v] == Renamed(comp, st[n - 1..], v)
  {
    assert st[..n] == st[..n - 1] + [st[n - 1]];
    assert st[n - 1..] == [st[n - 1]] + st[n..];
  }

  // The state once the stack is popped down to n.
  ghost function PoppedDown(s: Vars, n: nat, v: Table): Vars
    requires n <= |s.stack|
  {
    s.(stack := s.stack[..n], onStack := Elems(s.stack[..n]), compOf := Renamed(s.compOf, s.stack[n..], v))
  }

  lemma PopsNothing(s: Vars, v: Table)
    requires s.onStack == Elems(s.stack)
    ensures PoppedDown(s, |s.stack|, v) == s
  {
    assert s.stack[..|s.stack|] == s.stack;
  }

  lemma PopsTop(s: Vars, d: Vars, n: nat, v: Table)
    requires Distinct(s.stack) && 0 < n <= |s.stack| && d == PoppedDown(s, n, v)
    ensures |d.stack| == n
    ensures var w := d.stack[|d.stack| - 1];
      && w == s.stack[n - 1]
      && PoppedDown(s, n - 1, v) ==
          d.(stack := d.stack[..|d.stack| - 1], onStack := d.onStack - {w}, compOf := d.compOf[w := v])
  {
    TopLeaves(s.stack, n, s.compOf, v);
  }

  lemma FoundAt(st: seq<Table>, k: nat, i: nat)
    requires Distinct(st) && k < |st| && i < |st|
    ensures st[i] == st[k] <==> i == k
  {
  }

  // In visit order, the segment from the table at position k is the rest of the stack.
  lemma SegmentAt(d: Search, st: seq<Table>, k: nat, x: Table)
    requires d.open <= d.index.Keys && Ordered(st, d.open, d.index) && k < |st|
    ensures x in Segment(d, st[k]) <==> x in st[k..]
    ensures x in d.open - Segment(d, st[k]) <==> x in st[..k]
  {
    if x in st {
      var i :| 0 <= i < |st| && st[i] == x;
      if i < k {
        assert st[..k][i] == x;
        assert d.index[st[i]] < d.index[st[k]];
      } else {
        assert st[k..][i - k] == x;
      }
    }
  }

  lemma PoppedStack(d: Search, st: seq<Table>, k: nat)
    requires d.open <= d.index.Keys && Ordered(st, d.open, d.index) && k < |st|
    ensures Segment(d, st[k]) == Elems(st[k..])
    ensures Elems(st[..k]) == d.open - Segment(d, st[k])
    ensures Ordered(st[..k], d.open - Segment(d, st[k]), d.index)
    ensures Renamed(d.comp, st[k..], st[k]) == Named(d, st[k])
  {
    forall x
      ensures x in Segment(d, st[k]) <==> x in st[k..]
      ensures x in d.open - Segment(d, st[k]) <==> x in st[..k]
    {
      SegmentAt(d, st, k, x);
    }
  }

  // Edges found so far from the tables stacked since d0 back to the tables stacked before:
  // low bounds them. Of v's own edges, those in `todo` are not yet looked at.
  ghost predicate LowBound(g: Graph, d0: Search, d: Search, v: Table, low: nat, todo: set<Table>) {
    forall x, w :: x in d.open - d0.open && w in Succ(g, x) && w in d0.open && (x == v ==> w !in todo) ==>
      w in d.index && low <= d.index[w]
  }

  ghost predicate LowSoFar(g: Graph, d0: Search, d: Search, v: Table, low: nat, todo: set<Table>) {
    && v in d.open && v in d.index && low <= d.index[v]
    && LowReach(g, d, v, low)
    && LowBound(g, d0, d, v, low, todo)
  }

  ghost predicate LowPromise(g: Graph, d0: Search, d: Search, v: Table, low: nat) {
    && v in d.index && d0.counter <= d.index[v]
    && (if v in d.open then LowReach(g, d, v, low) else low == d.index[v])
    && LowBound(g, d0, d, v, low, {})
  }

  lemma LowAfterVisit(g: Graph, d0: Search, d1: Search, d: Search, v: Table, w: Table, low: nat, lowW: nat,
                      todo: set<Table>)
    requires LowSoFar(g, d0, d1, v, low, todo) && LowPromise(g, d1, d, w, lowW)
    requires Extends(d0, d1) && Extends(d1, d) && d1.index[v] < d1.counter
    requires w in Succ(g, v) && w !in d1.index && d0.open <= d0.index.Keys
    ensures LowSoFar(g, d0, d, v, Min(low, lowW), todo - {w})
  {
    var y :| y in d1.open && y in d1.index && d1.index[y] == low && Reach(g, v, y);
    assert y in d.open && y in d.index && d.index[y] == low;
    if w in d.open {
      var z :| z in d.open && z in d.index && d.index[z] == lowW && Reach(g, w, z);
      ReachEdge(g, v, w);
      ReachTrans(g, v, w, z);
    }
  }

  lemma LowAfterEdge(g: Graph, d0: Search, d: Search, v: Table, w: Table, low: nat, todo: set<Table>)
    requires LowSoFar(g, d0, d, v, low, todo) && w in Succ(g, v) && w in d.open && w in d.index
    ensures LowSoFar(g, d0, d, v, Min(low, d.index[w]), todo - {w})
  {
    ReachEdge(g, v, w);
  }

  // Everything the loop over v's edges maintains; `todo` are the edges not yet looked at.
  ghost predicate Visiting(g: Graph, d0: Search, d: Search, gray: set<Table>, v: Table, low: nat, todo: set<Table>) {
    && Inv(g, d, gray + {v})
    && Extends(Pushed(d0, v), d) && v !in d0.index && gray <= d0.open && Numbered(d0)
    && todo <= Succ(g, v) && Succ(g, v) - todo <= d.index.Keys
    && LowSoFar(g, d0, d, v, low, todo)
  }

  lemma VisitStarts(g: Graph, d0: Search, gray: set<Table>, v: Table)
    requires Inv(g, d0, gray) && v !in d0.index
    requires forall x :: x in gray ==> Reach(g, x, v)
    ensures Visiting(g, d0, Pushed(d0, v), gray, v, d0.counter, Succ(g, v))
  {
    PushKeeps(g, d0, gray, v);
    ReachSelf(g, v);
  }

  lemma VisitSkips(g: Graph, d0: Search, d: Search, gray: set<Table>, v: Table, low: nat, w: Table, todo: set<Table>)
    requires Visiting(g, d0, d, gray, v, low, todo) && w in todo && w in d.index && w !in d.open
    ensures Visiting(g, d0, d, gray, v, low, todo - {w})
  {
  }

  lemma VisitSeesEdge(g: Graph, d0: Search, d: Search, gray: set<Table>, v: Table, low: nat, w: Table, todo: set<Table>)
    requires Visiting(g, d0, d, gray, v, low, todo) && w in todo && w in d.open
    ensures w in d.index && Visiting(g, d0, d, gray, v, Min(low, d.index[w]), todo - {w})
  {
    LowAfterEdge(g, d0, d, v, w, low, todo);
  }

  lemma PushExtends(d: Search, v: Table, e: Search)
    requires Numbered(d) && v !in d.index && Extends(Pushed(d, v), e)
    ensures Extends(d, e)
  {
    ExtendsTrans(d, Pushed(d, v), e);
  }

  lemma VisitReturns(g: Graph, d0: Search, d1: Search, d: Search, gray: set<Table>, v: Table, low: nat, w: Table,
                     lowW: nat, todo: set<Table>)
    requires Visiting(g, d0, d1, gray, v, low, todo) && w in todo && w !in d1.index
    requires Inv(g, d, gray + {v}) && Extends(d1, d) && LowPromise(g, d1, d, w, lowW)
    ensures Visiting(g, d0, d, gray, v, Min(low, lowW), todo - {w})
  {
    ExtendsTrans(Pushed(d0, v), d1, d);
    PushExtends(d0, v, d1);
    LowAfterVisit(g, d0, d1, d, v, w, low, lowW, todo);
  }

  lemma GraysReach(g: Graph, gray: set<Table>, v: Table, w: Table)
    requires w in Succ(g, v)
    requires forall x :: x in gray ==> Reach(g, x, v)
    ensures forall x :: x in gray + {v} ==> Reach(g, x, w)
  {
    ReachEdge(g, v, w);
    forall x | x in gray ensures Reach(g, x, w) {
      ReachTrans(g, x, v, w);
    }
  }

  lemma NewestVisit(g: Graph, d0: Search, d: Search, gray: set<Table>, v: Table, low: nat)
    requires Visiting(g, d0, d, gray, v, low, {})
    ensures Newest(g, d, gray + {v}, v)
    ensures Segment(d, v) == d.open - d0.open && gray !! Segment(d, v) && v !in gray
    ensures gray + {v} - {v} == gray
  {
  }

  lemma PopInv(g: Graph, d: Search, gray: set<Table>, v: Table)
    requires Inv(g, d, gray + {v}) && Newest(g, d, gray + {v}, v) && v !in gray
    requires gray !! Segment(d, v)
    requires LowEdges(g, d, Segment(d, v), d.open - Segment(d, v), d.index[v])
    ensures Inv(g, Popped(d, v), gray)
  {
    forall y | y in Segment(d, v) ensures Mutual(g, v, y) {
      SegmentMutual(g, d, gray + {v}, v, y);
    }
    SegmentClosed(g, d, gray + {v}, v);
    NamedComponents(g, d, v);
    PoppedNumbered(d, v);
    PopDownward(g, d, gray + {v}, v);
    assert gray + {v} - {v} == gray;
  }

  lemma VisitPops(g: Graph, d0: Search, d: Search, gray: set<Table>, v: Table)
    requires v in d.index && Visiting(g, d0, d, gray, v, d.index[v], {})
    ensures Inv(g, Popped(d, v), gray)
    ensures Extends(d0, Popped(d, v)) && LowPromise(g, d0, Popped(d, v), v, d.index[v])
  {
    NewestVisit(g, d0, d, gray, v, d.index[v]);
    PopInv(g, d, gray, v);
    PushExtends(d0, v, d);
  }

  lemma VisitKeeps(g: Graph, d0: Search, d: Search, gray: set<Table>, v: Table, low: nat)
    requires v in d.index && Visiting(g, d0, d, gray, v, low, {}) && low < d.index[v]
    ensures Inv(g, d, gray)
    ensures Extends(d0, d) && LowPromise(g, d0, d, v, low)
  {
    NewestVisit(g, d0, d, gray, v, low);
    KeepDownward(g, d, gray + {v}, v, low);
  }

  // The dictionaries, list, set and counter that `visit` closes over.
  datatype Vars = Vars(index: map<Table, nat>, low: map<Table, nat>, stack: seq<Table>, onStack: set<Table>,
                       compOf: map<Table, Table>, counter: nat)
  {
    ghost function Abs(): Search { Search(index, onStack, compOf, counter) }

    ghost predicate Valid() {
      Numbered(Abs()) && Ordered(stack, onStack, index) && low.Keys == index.Keys
    }

    // low[v] = min(low[v], n)
    function Lowered(v: Table, n: nat): Vars
      requires v in low
    {
      this.(low := low[v := Min(low[v], n)])
    }

    lemma LoweredKeeps(v: Table, n: nat)
      requires Valid() && v in low
      ensures Lowered(v, n).Valid() && Lowered(v, n).Abs() == Abs()
      ensures Lowered(v, n).low.Keys == low.Keys && Lowered(v, n).low[v] == Min(low[v], n)
      ensures forall x :: x in low && x != v ==> Lowered(v, n).low[x] == low[x]
    {
    }
  }

  // The `while True` loop that empties the stack down to v.
  method PopLoop(s0: Vars, v: Table, ghost k: nat) returns (s: Vars)
    requires Distinct(s0.stack) && s0.onStack == Elems(s0.stack)
    requires k < |s0.stack| && s0.stack[k] == v
    ensures s == PoppedDown(s0, k, v)
  {
    s := s0;
    ghost var n := |s0.stack|;
    PopsNothing(s0, v);
    var more := true;
    while more
      invariant if more then k < n <= |s0.stack| else n == k
      invariant s == PoppedDown(s0, n, v)
      decreases n + if more then 1 else 0
    {
      PopsTop(s0, s, n, v);
      FoundAt(s0.stack, k, n - 1);
      var w := s.stack[|s.stack| - 1];
      n := n - 1;
      s := s.(stack := s.stack[..|s.stack| - 1], onStack := s.onStack - {w}, compOf := s.compOf[w := v]);
      more := w != v;
    }
  }

  class Finder {
    const graph: Graph
    var s: Vars

    constructor (graph: Graph)
      ensures this.graph == graph && s.Valid() && s.Abs() == Search(map[], {}, map[], 0)
    {
      this.graph := graph;
      s := Vars(map[], map[], [], {}, map[], 0);
    }

    method Push(v: Table)
      requires s.Valid() && v !in s.index
      modifies this
      ensures s.Valid() && s.Abs() == Pushed(old(s.Abs()), v)
      ensures s.stack == old(s.stack) + [v] && s.low == old(s.low)[v := old(s.counter)]
    {
      s := s.(index := s.index[v := s.counter], low := s.low[v := s.counter]);
      s := s.(counter := s.counter + 1);
      s := s.(stack := s.stack + [v], onStack := s.onStack + {v});
    }

    method PopTo(v: Table, ghost k: nat)
      requires Distinct(s.stack) && s.onStack == Elems(s.stack)
      requires k < |s.stack| && s.stack[k] == v
      modifies this
      ensures s == PoppedDown(old(s), k, v)
    {
      s := PopLoop(s, v, k);
    }

    method Pop(v: Table)
      requires s.Valid() && v in s.onStack
      modifies this
      ensures s.Valid() && s.Abs() == Popped(old(s.Abs()), v)
      ensures s.low == old(s.low) && s.stack <= old(s.stack)
    {
      assert v in s.stack;
      ghost var k :| 0 <= k < |s.stack| && s.stack[k] == v;
      OrderedDistinct(s.stack, s.onStack, s.index);
      PoppedStack(s.Abs(), s.stack, k);
      PoppedNumbered(s.Abs(), v);
      PopTo(v, k);
    }

    // The nested function `visit`. `gray` are the tables on the call stack.
    method Visit(v: Table, ghost gray: set<Table>, ghost vertices: set<Table>)
      requires s.Valid() && Inv(graph, s.Abs(), gray)
      requires Closed(graph, vertices) && s.index.Keys <= vertices
      requires v in vertices && v !in s.index
      requires forall x :: x in gray ==> Reach(graph, x, v)
      modifies this
      ensures s.Valid() && Inv(graph, s.Abs(), gray)
      ensures Extends(old(s.Abs()), s.Abs()) && s.index.Keys <= vertices && v in s.index
      ensures forall x :: x in old(s.low) ==> s.low[x] == old(s.low)[x]
      ensures LowPromise(graph, old(s.Abs()), s.Abs(), v, s.low[v])
      decreases vertices - s.index.Keys, 1, 0
    {
      ghost var d0, low0 := s.Abs(), s.low;
      VisitStarts(graph, d0, gray, v);
      Push(v);
      var todo := Succ(graph, v);
      ghost var d, lowV := s.Abs(), s.low[v];
      while todo != {}
        invariant s.Valid() && d == s.Abs() && v in s.low && s.low[v] == lowV
        invariant Visiting(graph, d0, d, gray, v, lowV, todo)
        invariant s.index.Keys <= vertices
        invariant forall x :: x in low0 ==> x in s.low && s.low[x] == low0[x]
        decreases todo
      {
        var w :| w in todo;
        Follow(v, w, d0, gray, vertices, todo);
        d, lowV := s.Abs(), s.low[v];
        todo := todo - {w};
      }
      Close(v, d0, gray);
    }

    // The end of `visit`: v's component is complete exactly when nothing below v was reached.
    method Close(v: Table, ghost d0: Search, ghost gray: set<Table>)
      requires s.Valid() && v in s.low && Visiting(graph, d0, s.Abs(), gray, v, s.low[v], {})
      modifies this
      ensures s.Valid() && Inv(graph, s.Abs(), gray)
      ensures s.low == old(s.low) && s.index == old(s.index)
      ensures Extends(d0, s.Abs()) && LowPromise(graph, d0, s.Abs(), v, s.low[v])
    {
      ghost var d := s.Abs();
      if s.low[v] == s.index[v] {
        VisitPops(graph, d0, d, gray, v);
        Pop(v);
      } else {
        VisitKeeps(graph, d0, d, gray, v, s.low[v]);
      }
    }

    // The body of the loop over v's edges, for the edge to w.
    method Follow(v: Table, w: Table, ghost d0: Search, ghost gray: set<Table>, ghost vertices: set<Table>,
                  ghost todo: set<Table>)
      requires s.Valid() && v in s.low && Visiting(graph, d0, s.Abs(), gray, v, s.low[v], todo)
      requires w in todo && Closed(graph, vertices) && s.index.Keys <= vertices
      requires forall x :: x in gray ==> Reach(graph, x, v)
      modifies this
      ensures s.Valid() && v in s.low && Visiting(graph, d0, s.Abs(), gray, v, s.low[v], todo - {w})
      ensures s.index.Keys <= vertices
      ensures forall x :: x in old(s.low) && x != v ==> x in s.low && s.low[x] == old(s.low)[x]
      decreases vertices - s.index.Keys, 2, 0
    {
      ghost var d, lowV := s.Abs(), s.low[v];
      if w !in s.index {
        GraysReach(graph, gray, v, w);
        Visit(w, gray + {v}, vertices);
        VisitReturns(graph, d0, d, s.Abs(), gray, v, lowV, w, s.low[w], todo);
        s.LoweredKeeps(v, s.low[w]);
        s := s.Lowered(v, s.low[w]);
      } else if w in s.onStack {
        VisitSeesEdge(graph, d0, d, gray, v, lowV, w, todo);
        s.LoweredKeeps(v, s.index[w]);
        s := s.Lowered(v, s.index[w]);
      } else {
        VisitSkips(graph, d0, d, gray, v, lowV, w, todo);
      }
    }

    // The loop that starts a visit from every table not reached yet.
    method VisitAll(tables: seq<Table>)
      requires s.Valid() && s.Abs() == Search(map[], {}, map[], 0)
      requires Closed(graph, Elems(tables))
      modifies this
      ensures Inv(graph, s.Abs(), {}) && s.index.Keys == Elems(tables)
    {
      var i := 0;
      while i < |tables|
        invariant 0 <= i <= |tables| && s.Valid() && Inv(graph, s.Abs(), {})
        invariant Elems(tables[..i]) <= s.index.Keys <= Elems(tables)
      {
        var t := tables[i];
        assert tables[..i + 1] == tables[..i] + [t];
        if t !in s.index {
          Visit(t, {}, Elems(tables));
        }
        i := i + 1;
      }
      assert tables[..i] == tables;
    }
  }

  /** Two tables get the same component exactly when each reaches the other. */
  method FindComponents(tables: seq<Table>, graph: Graph) returns (compOf: map<Table, Table>)
    requires Closed(graph, Elems(tables))
    ensures compOf.Keys == Elems(tables)
    ensures forall a, b :: a in tables && b in tables ==> (compOf[a] == compOf[b] <==> Mutual(graph, a, b))
  {
    var finder := new Finder(graph);
    finder.VisitAll(tables);
    NothingOpen(graph, finder.s.Abs());
    compOf := finder.s.compOf;
    forall a, b | a in tables && b in tables ensures compOf[a] == compOf[b] <==> Mutual(graph, a, b) {
      assert a in Elems(tables) && b in Elems(tables);
    }
  }

  lemma NothingOpen(g: Graph, d: Search)
    requires Inv(g, d, {})
    ensures d.open == {} && d.comp.Keys == d.index.Keys && Components(g, d.comp)
  {
    forall y ensures y !in d.open {
      assert !Anchored(g, d, {}, y);
    }
  }
}
