/** FIFO cost layers: what the oldest units cost, and taking them out. */
module Fifo {
  import opened Collections
  import opened Options

  datatype Item = Item(product: nat, variation: Option<nat>)

  // Quantities and unit costs are counted in units of the fourth decimal.
  datatype Layer = Layer(created: int, id: nat, branch: Option<nat>, item: Item, remaining: nat, cost: nat,
                         deleted: bool)

  // Which layers a query sees; no branch means all branches.
  datatype Filter = Filter(branch: Option<nat>, item: Item) {
    predicate Sees(l: Layer) {
      !l.deleted && l.item == item && (branch.None? || l.branch == branch)
    }
  }

  // ORDER BY created_at, id
  predicate Older(a: Layer, b: Layer) { a.created < b.created || (a.created == b.created && a.id <= b.id) }

  ghost predicate OldestFirst(layers: seq<Layer>) {
    forall i, j :: 0 <= i < j < |layers| ==>
      layers[i].created < layers[j].created || (layers[i].created == layers[j].created && layers[i].id <= layers[j].id)
  }

  function Copies(x: nat, n: nat): seq<nat> { seq(n, _ => x) }

  // The stock a filter sees, one entry per smallest unit holding its cost, oldest first.
  ghost function Units(layers: seq<Layer>, f: Filter): seq<nat> {
    if layers == [] then []
    else (if f.Sees(layers[0]) then Copies(layers[0].cost, layers[0].remaining) else []) + Units(layers[1..], f)
  }

  function Sum(s: seq<nat>): nat {
    if s == [] then 0 else s[0] + Sum(s[1..])
  }

  lemma {:induction false} SumAppend(a: seq<nat>, b: seq<nat>)
    ensures Sum(a + b) == Sum(a) + Sum(b)
  {
    if a == [] {
      assert a + b == b;
    } else {
      SumAppend(a[1..], b);
      assert (a + b)[1..] == a[1..] + b;
    }
  }

  lemma {:induction false} SumCopies(x: nat, n: nat)
    ensures Sum(Copies(x, n)) == n * x
  {
    if n > 0 {
      SumCopies(x, n - 1);
      assert Copies(x, n)[1..] == Copies(x, n - 1);
    }
  }

  lemma {:induction false} UnitsAppend(a: seq<Layer>, b: seq<Layer>, f: Filter)
    ensures Units(a + b, f) == Units(a, f) + Units(b, f)
  {
    if a == [] {
      assert a + b == b;
    } else {
      UnitsAppend(a[1..], b, f);
      assert (a + b)[1..] == a[1..] + b;
    }
  }

  // ROUND(n / d, 4) of two numbers of the same scale, half away from zero; both are non-negative here.
  function RoundedQuotient(n: nat, d: nat): nat
    requires d > 0
  {
    (2 * n + d) / (2 * d)
  }

  /** The rounded quotient is the nearest whole number, the larger one on a tie. */
  lemma RoundedIsNearest(n: nat, d: nat)
    requires d > 0
    ensures 2 * n - d < 2 * (RoundedQuotient(n, d) * d) <= 2 * n + d
  {
    var q := (2 * n + d) / (2 * d);
    var r := (2 * n + d) % (2 * d);
    assert 2 * n + d == q * (2 * d) + r;
    assert q * (2 * d) == 2 * (q * d);
  }

  lemma MulStep(a: nat, b: nat, d: nat)
    requires a < b
    ensures a * d + d <= b * d
  {
    assert b * d == a * d + (b - a) * d;
    assert (b - a) * d == d + (b - a - 1) * d;
  }

  lemma RoundedWithin(n: nat, d: nat, lo: nat, hi: nat)
    requires d > 0 && lo * d <= n <= hi * d
    ensures lo <= RoundedQuotient(n, d) <= hi
  {
    RoundedIsNearest(n, d);
    var q := RoundedQuotient(n, d);
    if q < lo { MulStep(q, lo, d); }
    if q > hi { MulStep(hi, q, d); }
  }

  // Taking q units out of the layers a filter sees, oldest first.
  function Drained(layers: seq<Layer>, f: Filter, q: nat): seq<Layer> {
    if layers == [] then []
    else
      var l := layers[0];
      if f.Sees(l) then
        var take := Min(q, l.remaining);
        [l.(remaining := l.remaining - take)] + Drained(layers[1..], f, q - take)
      else [l] + Drained(layers[1..], f, q)
  }

  lemma DropFromFront(a: seq<nat>, b: seq<nat>, k: nat)
    requires k <= |a| + |b|
    ensures (a + b)[k..] == if k <= |a| then a[k..] + b else b[k - |a|..]
  {
  }

  lemma UnitsCons(l: Layer, rest: seq<Layer>, f: Filter)
    ensures Units([l] + rest, f) == (if f.Sees(l) then Copies(l.cost, l.remaining) else []) + Units(rest, f)
  {
    assert ([l] + rest)[1..] == rest;
  }

  /** A layer counts, in its place, exactly if it is live, of the item, and at the branch asked for, if any. */
  lemma LayerCounts(a: seq<Layer>, l: Layer, b: seq<Layer>, f: Filter)
    ensures Units(a + [l] + b, f) ==
      if !l.deleted && l.item == f.item && (f.branch.None? || l.branch == f.branch)
      then Units(a, f) + Copies(l.cost, l.remaining) + Units(b, f)
      else Units(a + b, f)
  {
    UnitsAppend(a + [l], b, f);
    UnitsAppend(a, [l], f);
    UnitsAppend(a, b, f);
    UnitsCons(l, [], f);
    assert [l] + [] == [l];
  }

  // Dropping q units from n copies of x and what follows them.
  lemma DrainedFront(x: nat, n: nat, rest: seq<nat>, q: nat)
    ensures Copies(x, n - Min(q, n)) + rest[Min(q - Min(q, n), |rest|)..] == (Copies(x, n) + rest)[Min(q, n + |rest|)..]
  {
    DropFromFront(Copies(x, n), rest, Min(q, n + |rest|));
  }

  /** Draining removes exactly the oldest units. */
  lemma {:induction false} DrainedUnits(layers: seq<Layer>, f: Filter, q: nat)
    ensures Units(Drained(layers, f, q), f) == Units(layers, f)[Min(q, |Units(layers, f)|)..]
    decreases |layers|
  {
    if layers != [] {
      var l, rest := layers[0], layers[1..];
      var take := if f.Sees(l) then Min(q, l.remaining) else 0;
      DrainedUnits(rest, f, q - take);
      UnitsCons(l.(remaining := l.remaining - take), Drained(rest, f, q - take), f);
      if f.Sees(l) {
        DrainedFront(l.cost, l.remaining, Units(rest, f), q);
      }
    }
  }

  /** Units no layer of which the filter sees are untouched. */
  lemma {:induction false} DrainedElsewhere(layers: seq<Layer>, f: Filter, q: nat, g: Filter)
    requires forall l: Layer :: !(f.Sees(l) && g.Sees(l))
    ensures Units(Drained(layers, f, q), g) == Units(layers, g)
    decreases |layers|
  {
    if layers != [] {
      var l := layers[0];
      var take := if f.Sees(l) then Min(q, l.remaining) else 0;
      DrainedElsewhere(layers[1..], f, q - take, g);
      assert !(f.Sees(l) && g.Sees(l));
      assert Drained(layers, f, q)[1..] == Drained(layers[1..], f, q - take);
    }
  }

  lemma {:induction false} DrainedKeepsOrder(layers: seq<Layer>, f: Filter, q: nat)
    ensures |Drained(layers, f, q)| == |layers|
    ensures forall i :: 0 <= i < |layers| ==>
      Drained(layers, f, q)[i] == layers[i].(remaining := Drained(layers, f, q)[i].remaining)
    ensures OldestFirst(layers) ==> OldestFirst(Drained(layers, f, q))
    decreases |layers|
  {
    if layers != [] {
      var l := layers[0];
      var take := if f.Sees(l) then Min(q, l.remaining) else 0;
      DrainedKeepsOrder(layers[1..], f, q - take);
    }
  }

  lemma {:induction false} EarlierGoesFirst(layers: seq<Layer>, f: Filter, q: nat, i: nat, j: nat)
    requires i < j < |layers| && f.Sees(layers[i]) && f.Sees(layers[j])
    requires |Drained(layers, f, q)| == |layers| && Drained(layers, f, q)[j].remaining < layers[j].remaining
    ensures Drained(layers, f, q)[i].remaining == 0
    decreases |layers|
  {
    var l := layers[0];
    var take := if f.Sees(l) then Min(q, l.remaining) else 0;
    assert Drained(layers, f, q)[1..] == Drained(layers[1..], f, q - take);
    if i > 0 {
      EarlierGoesFirst(layers[1..], f, q - take, i - 1, j - 1);
    } else if take == q {
      DrainedByNothing(layers[1..], f, j - 1);
    }
  }

  lemma {:induction false} DrainedByNothing(layers: seq<Layer>, f: Filter, j: nat)
    requires j < |layers|
    ensures |Drained(layers, f, 0)| == |layers| && Drained(layers, f, 0)[j] == layers[j]
  {
    DrainedKeepsOrder(layers, f, 0);
    if j > 0 { DrainedByNothing(layers[1..], f, j - 1); }
  }

  /** No layer is drawn on before every older one of its position is used up. */
  lemma OldestGoesFirst(layers: seq<Layer>, f: Filter, q: nat, i: nat, j: nat)
    requires OldestFirst(layers) && i < |layers| && j < |layers| && f.Sees(layers[i]) && f.Sees(layers[j])
    requires
      || layers[i].created < layers[j].created
      || (layers[i].created == layers[j].created && layers[i].id < layers[j].id)
    requires |Drained(layers, f, q)| == |layers| && Drained(layers, f, q)[j].remaining < layers[j].remaining
    ensures Drained(layers, f, q)[i].remaining == 0
  {
    assert i < j;
    EarlierGoesFirst(layers, f, q, i, j);
  }

  datatype CostResult = NotPositive | Insufficient(shortBy: nat) | UnitCost(cost: nat)

  // What the function promises: the mean cost of the q oldest units.
  ghost function FifoCost(layers: seq<Layer>, f: Filter, qty: int): CostResult {
    var units := Units(layers, f);
    if qty <= 0 then NotPositive
    else if |units| < qty then Insufficient(qty - |units|)
    else UnitCost(RoundedQuotient(Sum(units[..qty]), qty))
  }

  // Where the loop stands before row i: everything older is taken, and that much is still wanted.
  ghost predicate Taking(layers: seq<Layer>, f: Filter, qty: nat, i: nat, remaining: nat, total: nat) {
    && i <= |layers| && remaining <= qty
    && var all := Units(layers, f);
       && qty - remaining <= |all| && total == Sum(all[..qty - remaining])
       && (remaining > 0 ==> Units(layers[i..], f) == all[qty - remaining..])
  }

  lemma TakesRow(layers: seq<Layer>, f: Filter, qty: nat, i: nat, remaining: nat, total: nat)
    requires Taking(layers, f, qty, i, remaining, total) && i < |layers| && remaining > 0 && f.Sees(layers[i])
    ensures var take := Min(remaining, layers[i].remaining);
      Taking(layers, f, qty, i + 1, remaining - take, total + take * layers[i].cost)
  {
    var l, all, done := layers[i], Units(layers, f), qty - remaining;
    assert layers[i..][0] == l && layers[i..][1..] == layers[i + 1..];
    var own, take := Copies(l.cost, l.remaining), Min(remaining, l.remaining);
    assert all[done..] == own + Units(layers[i + 1..], f);
    assert all[..done + take] == all[..done] + own[..take] by { assert all[done..][..take] == own[..take]; }
    SumAppend(all[..done], own[..take]);
    assert own[..take] == Copies(l.cost, take);
    SumCopies(l.cost, take);
    assert all[done..][l.remaining..] == Units(layers[i + 1..], f);
    if take == l.remaining { assert all[done + take..] == all[done..][take..]; }
  }

  // A row the filter does not see, or one already empty, is passed over.
  lemma PassesRow(layers: seq<Layer>, f: Filter, qty: nat, i: nat, remaining: nat, total: nat)
    requires Taking(layers, f, qty, i, remaining, total) && i < |layers|
    requires f.Sees(layers[i]) ==> layers[i].remaining == 0
    ensures Taking(layers, f, qty, i + 1, remaining, total)
  {
    assert layers[i..][0] == layers[i] && layers[i..][1..] == layers[i + 1..];
    assert Copies(layers[i].cost, 0) == [];
    assert Units(layers[i..], f) == [] + Units(layers[i + 1..], f);
  }

  lemma TakingEnds(layers: seq<Layer>, f: Filter, qty: nat, i: nat, remaining: nat, total: nat)
    requires qty > 0 && Taking(layers, f, qty, i, remaining, total)
    requires i == |layers| || remaining == 0
    ensures FifoCost(layers, f, qty) ==
      if remaining > 0 then Insufficient(remaining) else UnitCost(RoundedQuotient(total, qty))
  {
    if remaining > 0 { assert layers[i..] == []; }
  }

  /** get_fifo_cost(): rows are visited in (created_at, id) order. */
  method GetFifoCost(layers: seq<Layer>, f: Filter, qty: int) returns (r: CostResult)
    ensures r == FifoCost(layers, f, qty)
  {
    if qty <= 0 { return NotPositive; }
    var remaining: nat, total: nat := qty, 0;
    var i: nat := 0;
    assert layers[0..] == layers && Units(layers, f)[..0] == [];
    while i < |layers| && remaining > 0
      invariant Taking(layers, f, qty, i, remaining, total)
    {
      var l := layers[i];
      if f.Sees(l) && l.remaining > 0 {
        TakesRow(layers, f, qty, i, remaining, total);
        var take := Min(remaining, l.remaining);
        remaining, total := remaining - take, total + take * l.cost;
      } else {
        PassesRow(layers, f, qty, i, remaining, total);
      }
      i := i + 1;
    }
    TakingEnds(layers, f, qty, i, remaining, total);
    if remaining > 0 {
      return Insufficient(remaining);
    }
    return UnitCost(RoundedQuotient(total, qty));
  }

  /** The cost of q1 + q2 units is that of q1 units, then of q2 of what is left. */
  lemma CostSplits(layers: seq<Layer>, f: Filter, q1: nat, q2: nat)
    requires q1 + q2 <= |Units(layers, f)|
    ensures q2 <= |Units(Drained(layers, f, q1), f)|
    ensures Sum(Units(layers, f)[..q1 + q2]) ==
      Sum(Units(layers, f)[..q1]) + Sum(Units(Drained(layers, f, q1), f)[..q2])
    ensures Drained(Drained(layers, f, q1), f, q2) == Drained(layers, f, q1 + q2)
  {
    var units := Units(layers, f);
    DrainedUnits(layers, f, q1);
    assert units[..q1 + q2] == units[..q1] + units[q1..][..q2];
    SumAppend(units[..q1], units[q1..][..q2]);
    DrainedTwice(layers, f, q1, q2);
  }

  lemma {:induction false} DrainedTwice(layers: seq<Layer>, f: Filter, q1: nat, q2: nat)
    ensures Drained(Drained(layers, f, q1), f, q2) == Drained(layers, f, q1 + q2)
    decreases |layers|
  {
    if layers != [] {
      var l := layers[0];
      var d := Drained(layers, f, q1);
      var t1 := if f.Sees(l) then Min(q1, l.remaining) else 0;
      assert d[1..] == Drained(layers[1..], f, q1 - t1);
      var t2 := if f.Sees(l) then Min(q2, l.remaining - t1) else 0;
      DrainedTwice(layers[1..], f, q1 - t1, q2 - t2);
    }
  }

  lemma {:induction false} SumWithin(s: seq<nat>, lo: nat, hi: nat)
    requires forall i :: 0 <= i < |s| ==> lo <= s[i] <= hi
    ensures lo * |s| <= Sum(s) <= hi * |s|
  {
    if s != [] {
      var n := |s| - 1;
      SumWithin(s[1..], lo, hi);
      assert lo * (n + 1) == lo * n + lo;
      assert hi * (n + 1) == hi * n + hi;
    }
  }

  /** The rounded unit cost lies between the cheapest and the dearest unit taken. */
  lemma CostWithinLayersTouched(layers: seq<Layer>, f: Filter, qty: nat, lo: nat, hi: nat)
    requires 0 < qty <= |Units(layers, f)|
    requires forall i :: 0 <= i < qty ==> lo <= Units(layers, f)[i] <= hi
    ensures FifoCost(layers, f, qty).UnitCost? && lo <= FifoCost(layers, f, qty).cost <= hi
  {
    var taken := Units(layers, f)[..qty];
    SumWithin(taken, lo, hi);
    RoundedWithin(Sum(taken), qty, lo, hi);
  }

  // Every unit is one of a visible layer's, so its cost is that layer's.
  lemma {:induction false} UnitComesFromLayer(layers: seq<Layer>, f: Filter, u: nat)
    requires u < |Units(layers, f)|
    ensures exists i ::
      0 <= i < |layers| && f.Sees(layers[i]) && layers[i].remaining > 0 && layers[i].cost == Units(layers, f)[u]
  {
    var first := if f.Sees(layers[0]) then layers[0].remaining else 0;
    if u < first {
      assert f.Sees(layers[0]) && layers[0].cost == Units(layers, f)[u];
    } else {
      UnitComesFromLayer(layers[1..], f, u - first);
      var i :| 0 <= i < |layers[1..]| && f.Sees(layers[1..][i]) && layers[1..][i].remaining > 0
        && layers[1..][i].cost == Units(layers[1..], f)[u - first];
      assert layers[i + 1] == layers[1..][i];
    }
  }
}
