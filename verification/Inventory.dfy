/** Stock adjustments over the movement ledger and the cost layers, and the migration that aligns the two. */
module Inventory {
  import opened Collections
  import opened Options
  import opened Fifo

  datatype Movement = Movement(branch: nat, item: Item, qty: int, cost: nat, deleted: bool)

  datatype Slice = Slice(qty: nat, cost: nat)

  // `lastKnown` is the product's last known cost, the one used where no layer or client cost is.
  datatype Line = Line(item: Item, delta: int, cost: Option<nat>, lastKnown: nat)

  datatype AuditLine = AuditLine(item: Item, before: int, delta: int, after: int)

  function At(branch: nat, item: Item): Filter { Filter(Some(branch), item) }

  // Units the layers of a branch still hold.
  ghost function Stock(layers: seq<Layer>, branch: nat, item: Item): nat { |Units(layers, At(branch, item))| }

  function Quantity(m: Movement, branch: nat, item: Item): int {
    if !m.deleted && m.branch == branch && m.item == item then m.qty else 0
  }

  // SUM(qty) over the live movements of a position.
  function Balance(movements: seq<Movement>, branch: nat, item: Item): int {
    if movements == [] then 0
    else Balance(movements[..|movements| - 1], branch, item) + Quantity(movements[|movements| - 1], branch, item)
  }

  lemma BalanceOneMore(movements: seq<Movement>, m: Movement, branch: nat, item: Item)
    ensures Balance(movements + [m], branch, item) == Balance(movements, branch, item) + Quantity(m, branch, item)
  {
    assert (movements + [m])[..|movements|] == movements;
  }

  // What a position's movements are worth: SUM(qty * cost_per_unit), the stock view's inventory_value.
  function Value(movements: seq<Movement>, branch: nat, item: Item): int {
    if movements == [] then 0
    else
      var m := movements[|movements| - 1];
      Value(movements[..|movements| - 1], branch, item)
      + if !m.deleted && m.branch == branch && m.item == item then m.qty * m.cost else 0
  }

  // What the layers of a position are worth.
  ghost function LayerValue(layers: seq<Layer>, branch: nat, item: Item): nat { Sum(Units(layers, At(branch, item))) }

  lemma ValueOneMore(movements: seq<Movement>, m: Movement, branch: nat, item: Item)
    ensures Value(movements + [m], branch, item) == Value(movements, branch, item) +
      if !m.deleted && m.branch == branch && m.item == item then m.qty * m.cost else 0
  {
    assert (movements + [m])[..|movements|] == movements;
  }

  lemma {:induction false} ValueAdds(a: seq<Movement>, b: seq<Movement>, branch: nat, item: Item)
    ensures Value(a + b, branch, item) == Value(a, branch, item) + Value(b, branch, item)
    decreases |b|
  {
    if b == [] {
      assert a + b == a;
    } else {
      var front, m := b[..|b| - 1], b[|b| - 1];
      ValueAdds(a, front, branch, item);
      assert a + b == a + front + [m] && b == front + [m];
      ValueOneMore(a + front, m, branch, item);
      ValueOneMore(front, m, branch, item);
    }
  }

  // Only the one position's value moved.
  ghost predicate Revalued(before: seq<Movement>, after: seq<Movement>, branch: nat, item: Item, gain: int) {
    forall b, i :: Value(after, b, i) == Value(before, b, i) + (if b == branch && i == item then gain else 0)
  }

  // Only the one position's balance moved, by delta.
  ghost predicate Shifted(before: seq<Movement>, after: seq<Movement>, branch: nat, item: Item, delta: int) {
    forall b, i :: Balance(after, b, i) == Balance(before, b, i) + (if b == branch && i == item then delta else 0)
  }

  function SliceQty(slices: seq<Slice>): nat {
    if slices == [] then 0 else SliceQty(slices[..|slices| - 1]) + slices[|slices| - 1].qty
  }

  function SliceCost(slices: seq<Slice>): nat {
    if slices == [] then 0
    else SliceCost(slices[..|slices| - 1]) + slices[|slices| - 1].qty * slices[|slices| - 1].cost
  }

  // One outgoing movement per slice.
  function Outgoing(branch: nat, item: Item, slices: seq<Slice>): seq<Movement> {
    if slices == [] then []
    else
      var s := slices[|slices| - 1];
      Outgoing(branch, item, slices[..|slices| - 1]) + [Movement(branch, item, 0 - s.qty, s.cost, false)]
  }

  lemma SliceOneMore(slices: seq<Slice>, s: Slice)
    ensures SliceQty(slices + [s]) == SliceQty(slices) + s.qty
    ensures SliceCost(slices + [s]) == SliceCost(slices) + s.qty * s.cost
  {
    assert (slices + [s])[..|slices|] == slices;
  }

  lemma {:induction false} DrainedNothing(layers: seq<Layer>, f: Filter)
    ensures Drained(layers, f, 0) == layers
  {
    if layers != [] {
      DrainedNothing(layers[1..], f);
      assert layers == [layers[0]] + layers[1..];
    }
  }

  ghost predicate InsertedAt(before: seq<Layer>, after: seq<Layer>, l: Layer, k: nat) {
    k <= |before| && after == before[..k] + [l] + before[k..]
  }

  lemma InsertedInOrder(layers: seq<Layer>, l: Layer, n: nat)
    requires OldestFirst(layers) && n <= |layers|
    requires forall j :: 0 <= j < n ==> Older(layers[j], l)
    requires n < |layers| ==> !Older(layers[n], l)
    ensures OldestFirst(layers[..n] + [l] + layers[n..])
  {
    forall j | n <= j < |layers| ensures Older(l, layers[j]) {
      if j > n { assert Older(layers[n], layers[j]); }
    }
  }

  // A layer put anywhere among the others adds its units, at its cost, to whoever sees it.
  lemma InsertedUnits(before: seq<Layer>, after: seq<Layer>, l: Layer, k: nat, f: Filter)
    requires InsertedAt(before, after, l, k)
    ensures Units(before, f) == Units(before[..k], f) + Units(before[k..], f)
    ensures Units(after, f) ==
      Units(before[..k], f) + (if f.Sees(l) then Copies(l.cost, l.remaining) else []) + Units(before[k..], f)
  {
    assert before == before[..k] + before[k..];
    UnitsAppend(before[..k], before[k..], f);
    UnitsAppend(before[..k] + [l], before[k..], f);
    UnitsAppend(before[..k], [l], f);
    UnitsCons(l, [], f);
  }

  lemma SumInserted(a: seq<nat>, own: seq<nat>, b: seq<nat>)
    ensures Sum(a + own + b) == Sum(a + b) + Sum(own)
  {
    SumAppend(a + own, b);
    SumAppend(a, own);
    SumAppend(a, b);
  }

  // What a new layer does to a position.
  lemma InsertedStock(before: seq<Layer>, after: seq<Layer>, l: Layer, k: nat, branch: nat, item: Item)
    requires InsertedAt(before, after, l, k)
    ensures !At(branch, item).Sees(l) ==> Units(after, At(branch, item)) == Units(before, At(branch, item))
    ensures At(branch, item).Sees(l) ==> Stock(after, branch, item) == Stock(before, branch, item) + l.remaining
    ensures At(branch, item).Sees(l) && Stock(before, branch, item) == 0 ==>
      Units(after, At(branch, item)) == Copies(l.cost, l.remaining)
  {
    var f := At(branch, item);
    InsertedUnits(before, after, l, k, f);
    Between(Units(before[..k], f), if f.Sees(l) then Copies(l.cost, l.remaining) else [], Units(before[k..], f));
  }

  lemma Between(a: seq<nat>, own: seq<nat>, b: seq<nat>)
    ensures own == [] ==> a + own + b == a + b
    ensures |a + own + b| == |a + b| + |own|
    ensures |a + b| == 0 ==> a + own + b == own
  {
  }

  lemma InsertedValue(before: seq<Layer>, after: seq<Layer>, l: Layer, k: nat, branch: nat, item: Item)
    requires InsertedAt(before, after, l, k) && At(branch, item).Sees(l)
    ensures LayerValue(after, branch, item) == LayerValue(before, branch, item) + l.remaining * l.cost
  {
    var f := At(branch, item);
    InsertedUnits(before, after, l, k, f);
    SumInserted(Units(before[..k], f), Copies(l.cost, l.remaining), Units(before[k..], f));
    SumCopies(l.cost, l.remaining);
  }

  // The quantity taken out of a position by an adjustment, and its net change.
  function OutDemand(lines: seq<Line>, item: Item): nat {
    if lines == [] then 0
    else
      var l := lines[|lines| - 1];
      OutDemand(lines[..|lines| - 1], item) + if l.item == item && l.delta < 0 then -l.delta else 0
  }

  function NetDelta(lines: seq<Line>, item: Item): int {
    if lines == [] then 0
    else
      var l := lines[|lines| - 1];
      NetDelta(lines[..|lines| - 1], item) + if l.item == item then l.delta else 0
  }

  lemma LinesOneMore(lines: seq<Line>, n: nat, item: Item)
    requires n < |lines|
    ensures OutDemand(lines[..n + 1], item) ==
      OutDemand(lines[..n], item) + if lines[n].item == item && lines[n].delta < 0 then -lines[n].delta else 0
    ensures NetDelta(lines[..n + 1], item) ==
      NetDelta(lines[..n], item) + if lines[n].item == item then lines[n].delta else 0
  {
    assert lines[..n + 1][..n] == lines[..n];
  }

  lemma {:induction false} DemandGrows(lines: seq<Line>, n: nat, item: Item)
    requires n <= |lines|
    ensures OutDemand(lines[..n], item) <= OutDemand(lines, item)
    ensures NetDelta(lines[..n], item) + OutDemand(lines[..n], item) >= 0
    decreases |lines|
  {
    if n < |lines| {
      assert lines[..|lines| - 1][..n] == lines[..n];
      DemandGrows(lines[..|lines| - 1], n, item);
    } else if n > 0 {
      assert lines[..n] == lines;
      DemandGrows(lines[..n - 1], n - 1, item);
      assert lines[..n - 1][..n - 1] == lines[..n - 1];
    }
  }

  // The check made when negative stock is not allowed: each position covers its total outgoing quantity.
  ghost predicate Covered(movements: seq<Movement>, branch: nat, lines: seq<Line>) {
    forall item :: OutDemand(lines, item) > 0 ==> Balance(movements, branch, item) >= OutDemand(lines, item)
  }

  /** A covered position never dips below zero after any prefix of the lines, whatever their order. */
  lemma CoveredPrefix(movements: seq<Movement>, branch: nat, lines: seq<Line>, n: nat, item: Item)
    requires Covered(movements, branch, lines) && n <= |lines|
    requires Balance(movements, branch, item) >= 0 || OutDemand(lines, item) > 0
    ensures Balance(movements, branch, item) + NetDelta(lines[..n], item) >= 0
  {
    DemandGrows(lines, n, item);
  }

  lemma {:induction false} DemandOf(lines: seq<Line>, n: nat)
    requires n < |lines| && lines[n].delta < 0
    ensures OutDemand(lines, lines[n].item) >= -lines[n].delta
  {
    DemandGrows(lines, n + 1, lines[n].item);
    LinesOneMore(lines, n, lines[n].item);
  }

  // Rows before i are drained, rows from i on are as they were and still owe `remaining`.
  ghost predicate Draining(all: seq<Layer>, layers: seq<Layer>, f: Filter, qty: nat, i: nat, remaining: nat) {
    && i <= |layers| == |all| && layers[i..] == all[i..]
    && Drained(all, f, qty) == layers[..i] + Drained(all[i..], f, remaining)
  }

  lemma DrainsRow(all: seq<Layer>, layers: seq<Layer>, f: Filter, qty: nat, i: nat, remaining: nat)
    requires Draining(all, layers, f, qty, i, remaining) && i < |layers| && f.Sees(layers[i])
    ensures layers[i] == all[i]
    ensures var take := Min(remaining, layers[i].remaining);
      Draining(all, layers[i := layers[i].(remaining := layers[i].remaining - take)], f, qty, i + 1, remaining - take)
  {
    var l := layers[i];
    assert l == all[i..][0] == layers[i..][0];
    assert all[i..][1..] == all[i + 1..] == layers[i + 1..];
    var next := layers[i := l.(remaining := l.remaining - Min(remaining, l.remaining))];
    assert next[..i + 1] == layers[..i] + [next[i]];
    assert next[i + 1..] == layers[i + 1..];
  }

  // A row the filter does not see, or one already empty, is passed over.
  lemma SkipsRow(all: seq<Layer>, layers: seq<Layer>, f: Filter, qty: nat, i: nat, remaining: nat)
    requires Draining(all, layers, f, qty, i, remaining) && i < |layers| &&
      (f.Sees(layers[i]) ==> layers[i].remaining == 0)
    ensures layers[i] == all[i]
    ensures Draining(all, layers, f, qty, i + 1, remaining)
  {
    var l := layers[i];
    assert l == all[i..][0] == layers[i..][0];
    assert all[i..][1..] == all[i + 1..] == layers[i + 1..];
    assert layers[..i + 1] == layers[..i] + [l];
  }

  lemma DrainingEnds(all: seq<Layer>, layers: seq<Layer>, f: Filter, qty: nat, i: nat, remaining: nat, total: nat)
    requires Draining(all, layers, f, qty, i, remaining) && Taking(all, f, qty, i, remaining, total)
    requires i == |layers| || remaining == 0
    ensures layers == Drained(all, f, qty)
    ensures var units := Units(all, f);
      remaining == qty - Min(qty, |units|) && total == Sum(units[..Min(qty, |units|)])
  {
    if remaining == 0 { DrainedNothing(all[i..], f); }
    assert layers[..i] + layers[i..] == layers;
    if remaining > 0 { assert all[i..] == [] && Units(all[i..], f) == []; }
  }

  // What the draining loop maintains: rows so far, units still owed, slices cut and what they cost.
  ghost predicate Progress(all: seq<Layer>, rows: seq<Layer>, f: Filter, qty: nat, i: nat, owed: nat,
                           slices: seq<Slice>) {
    && Draining(all, rows, f, qty, i, owed)
    && Taking(all, f, qty, i, owed, SliceCost(slices))
    && SliceQty(slices) == qty - owed
  }

  lemma ProgressStarts(all: seq<Layer>, f: Filter, qty: nat)
    ensures Progress(all, all, f, qty, 0, qty, [])
  {
    assert all[0..] == all && all[..0] == [] && Units(all, f)[..0] == [];
  }

  lemma ProgressTakes(all: seq<Layer>, rows: seq<Layer>, f: Filter, qty: nat, i: nat, owed: nat, slices: seq<Slice>,
                      l: Layer)
    requires Progress(all, rows, f, qty, i, owed, slices) && i < |rows| && owed > 0 && l == rows[i] && f.Sees(l)
    ensures var take := Min(owed, l.remaining);
      Progress(all, rows[i := l.(remaining := l.remaining - take)], f, qty, i + 1, owed - take,
               slices + [Slice(take, l.cost)])
  {
    DrainsRow(all, rows, f, qty, i, owed);
    TakesRow(all, f, qty, i, owed, SliceCost(slices));
    SliceOneMore(slices, Slice(Min(owed, l.remaining), l.cost));
  }

  lemma ProgressPasses(all: seq<Layer>, rows: seq<Layer>, f: Filter, qty: nat, i: nat, owed: nat, slices: seq<Slice>)
    requires Progress(all, rows, f, qty, i, owed, slices) && i < |rows| && (f.Sees(rows[i]) ==> rows[i].remaining == 0)
    ensures Progress(all, rows, f, qty, i + 1, owed, slices)
  {
    SkipsRow(all, rows, f, qty, i, owed);
    PassesRow(all, f, qty, i, owed, SliceCost(slices));
  }

  // The loop over the selected rows, each losing what is taken from it.
  method DrainRows(all: seq<Layer>, f: Filter, qty: nat) returns (rows: seq<Layer>, slices: seq<Slice>, short: nat)
    ensures rows == Drained(all, f, qty)
    ensures var units := Units(all, f);
      && short == qty - Min(qty, |units|)
      && SliceQty(slices) == Min(qty, |units|)
      && SliceCost(slices) == Sum(units[..Min(qty, |units|)])
  {
    rows, slices, short := all, [], qty;
    var i: nat := 0;
    ProgressStarts(all, f, qty);
    while i < |rows| && short > 0
      invariant i <= |rows| && Progress(all, rows, f, qty, i, short, slices)
    {
      var l := rows[i];
      if f.Sees(l) && l.remaining > 0 {
        ProgressTakes(all, rows, f, qty, i, short, slices, l);
        var take := Min(short, l.remaining);
        rows := rows[i := l.(remaining := l.remaining - take)];
        slices := slices + [Slice(take, l.cost)];
        short := short - take;
      } else {
        ProgressPasses(all, rows, f, qty, i, short, slices);
      }
      i := i + 1;
    }
    DrainingEnds(all, rows, f, qty, i, short, SliceCost(slices));
  }

  class StockBook {
    var layers: seq<Layer>  // in (created_at, id) order
    var movements: seq<Movement>

    // create_fifo_layer(): a new row, found in its place by every later (created_at, id) scan.
    method AddLayer(branch: nat, item: Item, qty: nat, cost: nat, created: int) returns (l: Layer, ghost k: nat)
      requires OldestFirst(layers)
      modifies this`layers
      ensures OldestFirst(layers)
      ensures forall b, i ::
        Stock(layers, b, i) == Stock(old(layers), b, i) + if b == branch && i == item then qty else 0
      ensures l == Layer(created, l.id, Some(branch), item, qty, cost, false) && InsertedAt(old(layers), layers, l, k)
    {
      var id: nat := *;
      l := Layer(created, id, Some(branch), item, qty, cost, false);
      var n := 0;
      while n < |layers| && Older(layers[n], l)
        invariant 0 <= n <= |layers|
        invariant forall j :: 0 <= j < n ==> Older(layers[j], l)
      {
        n := n + 1;
      }
      k := n;
      InsertedInOrder(layers, l, n);
      layers := layers[..n] + [l] + layers[n..];
      forall b, i
        ensures Stock(layers, b, i) == Stock(old(layers), b, i) + if b == branch && i == item then qty else 0
      {
        InsertedStock(old(layers), layers, l, k, b, i);
      }
    }

    // consume_fifo_layers()
    method ConsumeLayers(branch: nat, item: Item, qty: nat) returns (slices: seq<Slice>, short: nat)
      modifies this`layers
      ensures layers == Drained(old(layers), At(branch, item), qty)
      ensures var units := Units(old(layers), At(branch, item));
        && short == qty - Min(qty, |units|)
        && SliceQty(slices) == Min(qty, |units|)
        && SliceCost(slices) == Sum(units[..Min(qty, |units|)])
      ensures qty == 0 ==> slices == []
    {
      if qty == 0 {
        DrainedNothing(layers, At(branch, item));
        return [], 0;
      }
      layers, slices, short := DrainRows(layers, At(branch, item), qty);
    }

    // create_stock_movement()
    method Move(branch: nat, item: Item, qty: int, cost: nat)
      modifies this`movements
      ensures movements == old(movements) + [Movement(branch, item, qty, cost, false)]
      ensures Shifted(old(movements), movements, branch, item, qty)
      ensures Revalued(old(movements), movements, branch, item, qty * cost)
    {
      var m := Movement(branch, item, qty, cost, false);
      forall b, i
        ensures Balance(movements + [m], b, i) == Balance(movements, b, i) + Quantity(m, b, i)
        ensures Value(movements + [m], b, i) ==
          Value(movements, b, i) + if b == branch && i == item then qty * cost else 0
      {
        BalanceOneMore(movements, m, b, i);
        ValueOneMore(movements, m, b, i);
      }
      movements := movements + [m];
    }

    /**
     * consume_to_movements(): takes the oldest units out of the layers, one outgoing movement per slice,
     * the uncovered rest at the last known cost. When the layers cover it all, the weighted cost is
     * exactly what get_fifo_cost() answered before.
     */
    method TakeOut(branch: nat, item: Item, qty: nat, lastKnown: nat)
      returns (weighted: nat, slices: seq<Slice>, short: nat)
      modifies this
      ensures movements == old(movements) + Outgoing(branch, item, slices)
      ensures SliceQty(slices) == qty && (qty > 0 ==> weighted == RoundedQuotient(SliceCost(slices), qty))
      ensures qty == 0 ==> weighted == 0 && slices == []
      ensures layers == Drained(old(layers), At(branch, item), qty)
      ensures short == qty - Min(qty, Stock(old(layers), branch, item))
      ensures Shifted(old(movements), movements, branch, item, 0 - qty)
      ensures Revalued(old(movements), movements, branch, item, 0 - SliceCost(slices))
      ensures SliceCost(slices) == Sum(Units(old(layers), At(branch, item))[..qty - short]) + short * lastKnown
      ensures qty > 0 && short == 0 ==> FifoCost(old(layers), At(branch, item), qty) == UnitCost(weighted)
    {
      slices, short := ConsumeLayers(branch, item, qty);
      if short > 0 {
        SliceOneMore(slices, Slice(short, lastKnown));
        slices := slices + [Slice(short, lastKnown)];
      }
      weighted := if qty == 0 then 0 else RoundedQuotient(SliceCost(slices), qty);
      MoveSlices(branch, item, slices);
    }

    method MoveSlices(branch: nat, item: Item, slices: seq<Slice>)
      modifies this`movements
      ensures movements == old(movements) + Outgoing(branch, item, slices)
      ensures Shifted(old(movements), movements, branch, item, 0 - SliceQty(slices))
      ensures Revalued(old(movements), movements, branch, item, 0 - SliceCost(slices))
    {
      var n := 0;
      assert slices[..0] == [];
      while n < |slices|
        invariant 0 <= n <= |slices| && movements == old(movements) + Outgoing(branch, item, slices[..n])
        invariant Shifted(old(movements), movements, branch, item, 0 - SliceQty(slices[..n]))
        invariant Revalued(old(movements), movements, branch, item, 0 - SliceCost(slices[..n]))
      {
        assert slices[..n + 1] == slices[..n] + [slices[n]];
        assert slices[..n + 1][..n] == slices[..n];
        SliceOneMore(slices[..n], slices[n]);
        assert (0 - slices[n].qty) * slices[n].cost == 0 - slices[n].qty * slices[n].cost;
        Move(branch, item, 0 - slices[n].qty, slices[n].cost);
        n := n + 1;
      }
      assert slices[..n] == slices;
    }

    // A line that brings stock in opens a layer at its cost and date.
    method BringIn(branch: nat, l: Line, cost: nat, adjustedAt: int)
      requires OldestFirst(layers) && l.delta > 0
      modifies this
      ensures OldestFirst(layers)
      ensures Shifted(old(movements), movements, branch, l.item, l.delta)
      ensures movements == old(movements) + [Movement(branch, l.item, l.delta, cost, false)]
      ensures exists k: nat, id: nat ::
        InsertedAt(old(layers), layers, Layer(adjustedAt, id, Some(branch), l.item, l.delta, cost, false), k)
      ensures Elsewhere(old(layers), layers, branch, l.item)
      ensures Stock(layers, branch, l.item) == Stock(old(layers), branch, l.item) + l.delta
      ensures Stock(old(layers), branch, l.item) == 0 ==> Units(layers, At(branch, l.item)) == Copies(cost, l.delta)
      ensures Worth(old(layers), old(movements), layers, movements, branch, l, l.delta * cost)
    {
      ghost var before := layers;
      var layer, k := AddLayer(branch, l.item, l.delta, cost, adjustedAt);
      Move(branch, l.item, l.delta, cost);
      InsertedElsewhere(before, layers, layer, k, branch, l.item);
      InsertedStock(before, layers, layer, k, branch, l.item);
      InsertedValue(before, layers, layer, k, branch, l.item);
    }

    // A line that takes stock out costs what get_fifo_cost() says, if the layers cover it.
    method TakeAway(branch: nat, l: Line) returns (cost: nat, ghost gain: int)
      requires OldestFirst(layers) && l.delta <= 0
      modifies this
      ensures OldestFirst(layers)
      ensures Shifted(old(movements), movements, branch, l.item, l.delta)
      ensures l.delta < 0 && -l.delta <= Stock(old(layers), branch, l.item) ==>
        FifoCost(old(layers), At(branch, l.item), -l.delta) == UnitCost(cost)
      ensures Elsewhere(old(layers), layers, branch, l.item)
      ensures var stock := Stock(old(layers), branch, l.item);
        Stock(layers, branch, l.item) == stock - Min(-l.delta, stock)
      ensures Worth(old(layers), old(movements), layers, movements, branch, l, gain)
    {
      ghost var before, mv := layers, movements;
      var slices, short;
      cost, slices, short := TakeOut(branch, l.item, -l.delta, l.lastKnown);
      gain := 0 - SliceCost(slices);
      TakenPosition(before, layers, branch, l.item, -l.delta);
      TakenWorth(before, layers, mv, movements, branch, l, SliceCost(slices), short);
    }

    // One adjustment line. Only an opening balance may name its own cost.
    method AdjustLine(branch: nat, l: Line, opening: bool, adjustedAt: int) returns (cost: nat, ghost gain: int)
      requires OldestFirst(layers)
      modifies this
      ensures OldestFirst(layers)
      ensures Shifted(old(movements), movements, branch, l.item, l.delta)
      ensures l.delta > 0 ==> cost == if opening && l.cost.Some? then l.cost.value else l.lastKnown
      ensures l.delta > 0 ==> exists k: nat, id: nat ::
        InsertedAt(old(layers), layers, Layer(adjustedAt, id, Some(branch), l.item, l.delta, cost, false), k)
      ensures l.delta > 0 && Stock(old(layers), branch, l.item) == 0 ==>
        Units(layers, At(branch, l.item)) == Copies(cost, l.delta)
      ensures l.delta > 0 ==> movements == old(movements) + [Movement(branch, l.item, l.delta, cost, false)]
      ensures l.delta < 0 && -l.delta <= Stock(old(layers), branch, l.item) ==>
        FifoCost(old(layers), At(branch, l.item), -l.delta) == UnitCost(cost)
      ensures Elsewhere(old(layers), layers, branch, l.item)
      ensures var stock := Stock(old(layers), branch, l.item);
        Stock(layers, branch, l.item) == if l.delta > 0 then stock + l.delta else stock - Min(-l.delta, stock)
      ensures Worth(old(layers), old(movements), layers, movements, branch, l, gain)
    {
      if l.delta > 0 {
        cost := if opening && l.cost.Some? then l.cost.value else l.lastKnown;
        BringIn(branch, l, cost, adjustedAt);
        gain := l.delta * cost;
      } else {
        cost, gain := TakeAway(branch, l);
      }
    }

    // On-hand quantity of every position named by a line.
    method OnHand(branch: nat, lines: seq<Line>) returns (onHand: map<Item, int>)
      ensures forall l :: l in lines ==> l.item in onHand
      ensures forall i :: i in onHand ==> onHand[i] == Balance(movements, branch, i)
    {
      onHand := map[];
      for n := 0 to |lines|
        invariant forall k :: 0 <= k < n ==> lines[k].item in onHand
        invariant forall i :: i in onHand ==> onHand[i] == Balance(movements, branch, i)
      {
        if lines[n].item !in onHand {
          onHand := onHand[lines[n].item := Balance(movements, branch, lines[n].item)];
        }
      }
    }

    // The loops that add up outgoing quantities per position and check each against its balance.
    method CheckDemand(branch: nat, lines: seq<Line>) returns (ok: bool)
      ensures ok <==> Covered(movements, branch, lines)
    {
      var outDemand: map<Item, nat> := map[];
      var n := 0;
      assert lines[..0] == [];
      while n < |lines|
        invariant 0 <= n <= |lines|
        invariant forall i :: (if i in outDemand then outDemand[i] else 0) == OutDemand(lines[..n], i)
      {
        forall i { LinesOneMore(lines, n, i); }
        var l := lines[n];
        if l.delta < 0 {
          outDemand := outDemand[l.item := (if l.item in outDemand then outDemand[l.item] else 0) + (-l.delta)];
        }
        n := n + 1;
      }
      assert lines[..n] == lines;
      ok := forall i :: i in outDemand && outDemand[i] > 0 ==> Balance(movements, branch, i) >= outDemand[i];
    }

    method AdjustLines(branch: nat, lines: seq<Line>, opening: bool, adjustedAt: int, ghost covered: bool)
      requires OldestFirst(layers) && (covered ==> Covered(movements, branch, lines))
      modifies this
      ensures OldestFirst(layers)
      ensures Adjusted(old(movements), movements, branch, lines)
      ensures covered ==> StaysInStep(old(layers), old(movements), layers, movements)
      ensures covered ==> StaysWorth(old(layers), old(movements), layers, movements)
      ensures Stocked(old(layers), layers, branch, lines, opening)
    {
      ghost var mv, ls := movements, layers;
      var n := 0;
      forall i ensures NetDelta(lines[..0], i) == 0 {}
      while n < |lines|
        invariant 0 <= n <= |lines| && OldestFirst(layers)
        invariant Adjusted(mv, movements, branch, lines[..n])
        invariant covered ==> StaysInStep(ls, mv, layers, movements) && StaysWorth(ls, mv, layers, movements)
        invariant Stocked(ls, layers, branch, lines[..n], opening)
      {
        ghost var mv1, ls1 := movements, layers;
        ghost var gain;
        var cost;
        cost, gain := AdjustLine(branch, lines[n], opening, adjustedAt);
        ghost var mv2, ls2 := movements, layers;
        AdjustedOneMore(mv, mv1, mv2, branch, lines, n);
        StockedOneMore(ls, ls1, ls2, branch, lines, n, opening);
        if covered {
          LineStaysInStep(mv, ls, mv1, ls1, mv2, ls2, branch, lines, n);
          LineStaysWorth(mv, ls, mv1, ls1, mv2, ls2, branch, lines, n, gain);
        }
        n := n + 1;
      }
      assert lines[..n] == lines;
    }

    // The audit's running quantities.
    method Audit(lines: seq<Line>, onHandBefore: map<Item, int>) returns (audit: seq<AuditLine>)
      requires forall l :: l in lines ==> l.item in onHandBefore
      ensures |audit| == |lines|
      ensures forall n {:trigger audit[n]} :: 0 <= n < |lines| ==>
        audit[n] == AuditAt(onHandBefore[lines[n].item], lines, n)
    {
      audit := [];
      var running := onHandBefore;
      var n := 0;
      assert lines[..0] == [];
      while n < |lines|
        invariant 0 <= n <= |lines| && |audit| == n
        invariant running.Keys == onHandBefore.Keys
        invariant forall i :: i in running ==> running[i] == onHandBefore[i] + NetDelta(lines[..n], i)
        invariant forall k {:trigger audit[k]} :: 0 <= k < n ==>
          audit[k] == AuditAt(onHandBefore[lines[k].item], lines, k)
      {
        forall i { LinesOneMore(lines, n, i); }
        var l := lines[n];
        assert l in lines;
        var before := running[l.item];
        running := running[l.item := before + l.delta];
        audit := audit + [AuditLine(l.item, before, l.delta, running[l.item])];
        n := n + 1;
      }
    }

    /**
     * create_stock_adjustment(). It refuses exactly when negative stock is not allowed and some position's
     * balance does not cover what the lines take out of it; a refusal changes nothing. Otherwise every
     * balance moves by its lines' net delta and the audit's running quantities are the true ones, ending
     * at the new balance. When the check was made, no stock-out leaves its position negative, and layers
     * that held exactly the balance still do.
     */
    method CreateAdjustment(branch: nat, lines: seq<Line>, opening: bool, adjustedAt: int, allowNegative: bool)
      returns (ok: bool, audit: seq<AuditLine>)
      requires OldestFirst(layers)
      modifies this
      ensures OldestFirst(layers)
      ensures ok <==> allowNegative || Covered(old(movements), branch, lines)
      ensures !ok ==> audit == []
      ensures Outcome(old(layers), old(movements), layers, movements, branch, lines, opening, ok)
      ensures ok ==> Audited(old(movements), movements, branch, lines, audit)
      ensures ok && !allowNegative ==> StaysInStep(old(layers), old(movements), layers, movements)
      ensures ok && !allowNegative ==> StaysWorth(old(layers), old(movements), layers, movements)
      ensures ok && !allowNegative ==> NeverNegative(old(movements), branch, lines, audit)
    {
      ghost var mv := movements;
      var onHandBefore := OnHand(branch, lines);
      ok, audit := true, [];
      if !allowNegative {
        ok := CheckDemand(branch, lines);
        if !ok { return; }
      }
      AdjustLines(branch, lines, opening, adjustedAt, !allowNegative);
      audit := Audit(lines, onHandBefore);
      AuditIsTrue(mv, movements, branch, lines, onHandBefore, audit);
      if !allowNegative {
        CoveredAuditNonNegative(mv, movements, branch, lines, audit);
      }
    }

    /**
     * Any sequence of adjustments with negative stock disallowed, whichever are refused: wherever the layers
     * held exactly the balance they still do, and are still worth what the ledger says, and no balance that was
     * non-negative becomes negative.
     */
    method AdjustAll(requests: seq<Request>)
      returns (accepted: seq<bool>, ghost trace: seq<(seq<Layer>, seq<Movement>)>)
      requires OldestFirst(layers)
      modifies this
      ensures OldestFirst(layers)
      ensures Traced(requests, accepted, trace)
      ensures trace[0] == (old(layers), old(movements)) && trace[|requests|] == (layers, movements)
      ensures StaysInStep(old(layers), old(movements), layers, movements)
      ensures StaysWorth(old(layers), old(movements), layers, movements)
      ensures StaysNonNegative(old(movements), movements)
    {
      accepted, trace := [], [(layers, movements)];
      for n := 0 to |requests|
        invariant OldestFirst(layers)
        invariant Traced(requests[..n], accepted, trace)
        invariant trace[0] == (old(layers), old(movements)) && trace[n] == (layers, movements)
        invariant StaysInStep(old(layers), old(movements), layers, movements)
        invariant StaysWorth(old(layers), old(movements), layers, movements)
        invariant StaysNonNegative(old(movements), movements)
      {
        var Request(branch, lines, opening, adjustedAt) := requests[n];
        ghost var ls, before := layers, movements;
        var ok, audit := CreateAdjustment(branch, lines, opening, adjustedAt, false);
        if ok { AdjustedNonNegative(before, movements, branch, lines); }
        TracedOneMore(requests, n, accepted, trace, ls, before, layers, movements, ok);
        accepted, trace := accepted + [ok], trace + [(layers, movements)];
      }
      assert requests[..|requests|] == requests;
    }

    /**
     * The migration's synthetic layers: every position with live movements ends with the larger of its
     * balance and what its layers already held; no other position changes.
     */
    method InsertSyntheticLayers()
      requires OldestFirst(layers)
      modifies this`layers
      ensures OldestFirst(layers)
      ensures Aligned(old(layers), layers, movements, Groups(movements))
      ensures forall b: nat, i :: Balance(movements, b, i) <= Stock(layers, b, i)
    {
      ghost var ls := layers;
      var todo := Groups(movements);
      while todo != {}
        invariant todo <= Groups(movements) && OldestFirst(layers)
        invariant Aligned(ls, layers, movements, Groups(movements) - todo)
        decreases todo
      {
        var g :| g in todo;
        var held := Held(layers, At(g.0, g.1));
        HeldIsStock(layers, At(g.0, g.1));
        var diff := Balance(movements, g.0, g.1) - held;
        if diff > 0 {
          var cost: nat := *;     // of the latest incoming movement, 0 if none
          var firstAt: int := *;  // of the earliest movement
          var layer, _ := AddLayer(g.0, g.1, diff, cost, firstAt);
        }
        todo := todo - {g};
      }
      forall b: nat, i ensures Balance(movements, b, i) <= Stock(layers, b, i) {
        if (b, i) !in Groups(movements) { NoGroupNoBalance(movements, b, i); }
      }
    }
  }

  // The groups' layers hold the larger of balance and what they held; nothing else changed.
  ghost predicate Aligned(before: seq<Layer>, after: seq<Layer>, movements: seq<Movement>, groups: set<(nat, Item)>) {
    forall b: nat, i :: Stock(after, b, i) ==
      (if (b, i) in groups then Larger(Balance(movements, b, i), Stock(before, b, i)) else Stock(before, b, i))
  }

  function Larger(a: int, b: int): int { if a >= b then a else b }

  // GROUP BY branch, product, variation over the live movements.
  function Groups(movements: seq<Movement>): set<(nat, Item)> {
    set m | m in movements && !m.deleted :: (m.branch, m.item)
  }

  // SUM(qty_remaining) over a branch's layers.
  function Held(layers: seq<Layer>, f: Filter): nat {
    if layers == [] then 0 else (if f.Sees(layers[0]) then layers[0].remaining else 0) + Held(layers[1..], f)
  }

  lemma {:induction false} HeldIsStock(layers: seq<Layer>, f: Filter)
    ensures Held(layers, f) == |Units(layers, f)|
  {
    if layers != [] { HeldIsStock(layers[1..], f); }
  }

  lemma {:induction false} NoGroupNoBalance(movements: seq<Movement>, b: nat, i: Item)
    requires (b, i) !in Groups(movements)
    ensures Balance(movements, b, i) == 0
  {
    if movements != [] {
      var front, m := movements[..|movements| - 1], movements[|movements| - 1];
      assert m in movements && forall x :: x in front ==> x in movements;
      if !m.deleted { assert (m.branch, m.item) in Groups(movements); }
      forall x | x in front && !x.deleted ensures (x.branch, x.item) in Groups(movements) {}
      NoGroupNoBalance(front, b, i);
    }
  }

  /** After the migration a cost can be asked for any positive quantity up to the balance. */
  lemma BalanceHasCost(layers: seq<Layer>, movements: seq<Movement>, b: nat, i: Item, qty: int)
    requires Balance(movements, b, i) <= Stock(layers, b, i) && 0 < qty <= Balance(movements, b, i)
    ensures FifoCost(layers, At(b, i), qty).UnitCost?
  {
  }

  // Every balance of the branch moved by the lines' net delta, every other one not at all.
  ghost predicate Adjusted(before: seq<Movement>, after: seq<Movement>, branch: nat, lines: seq<Line>) {
    forall b, i :: Balance(after, b, i) == Balance(before, b, i) + (if b == branch then NetDelta(lines, i) else 0)
  }

  // Wherever layers held exactly the balance, they still do.
  ghost predicate StaysInStep(layers0: seq<Layer>, movements0: seq<Movement>, layers: seq<Layer>,
                              movements: seq<Movement>) {
    forall b, i :: Stock(layers0, b, i) == Balance(movements0, b, i) ==> Stock(layers, b, i) == Balance(movements, b, i)
  }

  lemma LineStaysWorth(mv0: seq<Movement>, ls0: seq<Layer>, mv1: seq<Movement>, ls1: seq<Layer>, mv2: seq<Movement>,
                       ls2: seq<Layer>, branch: nat, lines: seq<Line>, n: nat, gain: int)
    requires n < |lines| && Covered(mv0, branch, lines)
    requires Adjusted(mv0, mv1, branch, lines[..n]) && StaysInStep(ls0, mv0, ls1, mv1) && StaysWorth(ls0, mv0, ls1, mv1)
    requires Elsewhere(ls1, ls2, branch, lines[n].item)
    requires Worth(ls1, mv1, ls2, mv2, branch, lines[n], gain)
    ensures StaysWorth(ls0, mv0, ls2, mv2)
  {
    var l := lines[n];
    if Stock(ls0, branch, l.item) == Balance(mv0, branch, l.item) && l.delta < 0 {
      DemandOf(lines, n);
      CoveredPrefix(mv0, branch, lines, n + 1, l.item);
      LinesOneMore(lines, n, l.item);
      assert -l.delta <= Stock(ls1, branch, l.item);
    }
  }

  lemma StockedOneMore(ls0: seq<Layer>, ls1: seq<Layer>, ls2: seq<Layer>, branch: nat, lines: seq<Line>, n: nat,
                       opening: bool)
    requires n < |lines| && Stocked(ls0, ls1, branch, lines[..n], opening)
    requires Elsewhere(ls1, ls2, branch, lines[n].item)
    requires lines[n].delta > 0 && Stock(ls1, branch, lines[n].item) == 0 ==>
      Units(ls2, At(branch, lines[n].item)) == Copies(CostIn(lines[n], opening), lines[n].delta)
    ensures Stocked(ls0, ls2, branch, lines[..n + 1], opening)
  {
    var before, all := lines[..n], lines[..n + 1];
    assert all == before + [lines[n]];
    forall b, i | b == branch ==> forall l :: l in all ==> l.item != i
      ensures Units(ls2, At(b, i)) == Units(ls0, At(b, i))
    {
      assert forall l :: l in before ==> l in all;
      assert lines[n] in all;
    }
    forall m | 0 <= m < |all| && all[m].delta > 0 && Stock(ls0, branch, all[m].item) == 0
               && (forall j :: 0 <= j < |all| && j != m ==> all[j].item != all[m].item)
      ensures Units(ls2, At(branch, all[m].item)) == Copies(CostIn(all[m], opening), all[m].delta)
    {
      if m == n {
        forall l | l in before ensures l.item != all[m].item {
          var j :| 0 <= j < n && before[j] == l;
          assert all[j] == l;
        }
      } else {
        assert all[n] == lines[n] && before[m] == all[m];
        assert forall j :: 0 <= j < n ==> before[j] == all[j];
      }
    }
  }

  /** Stock put into an empty position costs, in any quantity, what the line that brought it says. */
  lemma StockedCost(layers0: seq<Layer>, layers: seq<Layer>, branch: nat, lines: seq<Line>, opening: bool,
                    n: nat, qty: nat)
    requires Stocked(layers0, layers, branch, lines, opening) && n < |lines| && 0 < qty <= lines[n].delta
    requires Stock(layers0, branch, lines[n].item) == 0
    requires forall m :: 0 <= m < |lines| && m != n ==> lines[m].item != lines[n].item
    ensures FifoCost(layers, At(branch, lines[n].item), qty) ==
      UnitCost(if opening && lines[n].cost.Some? then lines[n].cost.value else lines[n].lastKnown)
  {
    var c := CostIn(lines[n], opening);
    assert Units(layers, At(branch, lines[n].item)) == Copies(c, lines[n].delta);
    CostWithinLayersTouched(layers, At(branch, lines[n].item), qty, c, c);
  }

  ghost predicate StaysNonNegative(before: seq<Movement>, after: seq<Movement>) {
    forall b: nat, i :: Balance(before, b, i) >= 0 ==> Balance(after, b, i) >= 0
  }

  lemma AdjustedNonNegative(before: seq<Movement>, after: seq<Movement>, branch: nat, lines: seq<Line>)
    requires Covered(before, branch, lines) && Adjusted(before, after, branch, lines)
    ensures StaysNonNegative(before, after)
  {
    forall i | Balance(before, branch, i) >= 0 ensures Balance(after, branch, i) >= 0 {
      CoveredPrefix(before, branch, lines, |lines|, i);
      assert lines[..|lines|] == lines;
    }
  }

  // Every other position keeps its units.
  ghost predicate Elsewhere(before: seq<Layer>, after: seq<Layer>, branch: nat, item: Item) {
    forall b, i :: !(b == branch && i == item) ==> Units(after, At(b, i)) == Units(before, At(b, i))
  }

  lemma InsertedElsewhere(before: seq<Layer>, after: seq<Layer>, l: Layer, k: nat, branch: nat, item: Item)
    requires InsertedAt(before, after, l, k) && l.branch == Some(branch) && l.item == item
    ensures Elsewhere(before, after, branch, item)
  {
    forall b, i | !(b == branch && i == item) ensures Units(after, At(b, i)) == Units(before, At(b, i)) {
      InsertedStock(before, after, l, k, b, i);
    }
  }

  lemma DrainedElsewhereAt(layers: seq<Layer>, branch: nat, item: Item, qty: nat)
    ensures Elsewhere(layers, Drained(layers, At(branch, item), qty), branch, item)
  {
    forall b, i | !(b == branch && i == item)
      ensures Units(Drained(layers, At(branch, item), qty), At(b, i)) == Units(layers, At(b, i))
    {
      DrainedElsewhere(layers, At(branch, item), qty, At(b, i));
    }
  }

  // One line moves the position's value by `gain`, in the ledger and (but for what no layer covers, which the
  // ledger values at the last known cost) in the layers alike; no other value moves.
  ghost predicate Worth(layers0: seq<Layer>, movements0: seq<Movement>, layers: seq<Layer>, movements: seq<Movement>,
                        branch: nat, l: Line, gain: int) {
    var short := if l.delta < 0 then -l.delta - Min(-l.delta, Stock(layers0, branch, l.item)) else 0;
    && Revalued(movements0, movements, branch, l.item, gain)
    && LayerValue(layers, branch, l.item) == LayerValue(layers0, branch, l.item) + gain + short * l.lastKnown
  }

  lemma TakenPosition(before: seq<Layer>, after: seq<Layer>, branch: nat, item: Item, qty: nat)
    requires OldestFirst(before) && after == Drained(before, At(branch, item), qty)
    ensures OldestFirst(after) && Elsewhere(before, after, branch, item)
    ensures Stock(after, branch, item) == Stock(before, branch, item) - Min(qty, Stock(before, branch, item))
  {
    DrainedKeepsOrder(before, At(branch, item), qty);
    DrainedElsewhereAt(before, branch, item, qty);
    DrainedUnits(before, At(branch, item), qty);
  }

  lemma TakenWorth(layers: seq<Layer>, after: seq<Layer>, movements0: seq<Movement>, movements: seq<Movement>,
                   branch: nat, l: Line, paid: nat, short: nat)
    requires l.delta <= 0 && after == Drained(layers, At(branch, l.item), -l.delta)
    requires Revalued(movements0, movements, branch, l.item, 0 - paid)
    requires short == -l.delta - Min(-l.delta, Stock(layers, branch, l.item))
    requires paid == Sum(Units(layers, At(branch, l.item))[..-l.delta - short]) + short * l.lastKnown
    ensures Worth(layers, movements0, after, movements, branch, l, 0 - paid)
  {
    DrainedValue(layers, branch, l.item, -l.delta);
  }

  // Wherever layers held exactly the balance and were worth what the ledger says, they still are.
  ghost predicate StaysWorth(layers0: seq<Layer>, movements0: seq<Movement>,
                             layers: seq<Layer>, movements: seq<Movement>) {
    forall b, i ::
      Stock(layers0, b, i) == Balance(movements0, b, i) && LayerValue(layers0, b, i) == Value(movements0, b, i)
      ==> LayerValue(layers, b, i) == Value(movements, b, i)
  }

  // The unit cost of a line that brings stock in.
  function CostIn(l: Line, opening: bool): nat { if opening && l.cost.Some? then l.cost.value else l.lastKnown }

  // Positions no line names keep their units; an empty one that one line stocks holds that line's units at its cost.
  ghost predicate Stocked(layers0: seq<Layer>, layers: seq<Layer>, branch: nat, lines: seq<Line>, opening: bool) {
    && (forall b, i :: (b == branch ==> forall l :: l in lines ==> l.item != i) ==>
          Units(layers, At(b, i)) == Units(layers0, At(b, i)))
    && (forall n :: 0 <= n < |lines| && lines[n].delta > 0 && Stock(layers0, branch, lines[n].item) == 0
                    && (forall m :: 0 <= m < |lines| && m != n ==> lines[m].item != lines[n].item) ==>
          Units(layers, At(branch, lines[n].item)) == Copies(CostIn(lines[n], opening), lines[n].delta))
  }

  // An accepted adjustment moves balances by its lines' net deltas and stocks what they bring in.
  ghost predicate Outcome(layers0: seq<Layer>, movements0: seq<Movement>, layers: seq<Layer>, movements: seq<Movement>,
                          branch: nat, lines: seq<Line>, opening: bool, ok: bool) {
    if ok then Adjusted(movements0, movements, branch, lines) && Stocked(layers0, layers, branch, lines, opening)
    else layers == layers0 && movements == movements0
  }

  datatype Request = Request(branch: nat, lines: seq<Line>, opening: bool, adjustedAt: int)

  // Each request leads from one state to the next, accepted exactly when covered.
  ghost predicate Traced(requests: seq<Request>, accepted: seq<bool>, trace: seq<(seq<Layer>, seq<Movement>)>) {
    && |accepted| == |requests| && |trace| == |requests| + 1
    && forall n :: 0 <= n < |requests| ==> StepTraced(requests, accepted, trace, n)
  }

  ghost predicate StepTraced(requests: seq<Request>, accepted: seq<bool>,
                             trace: seq<(seq<Layer>, seq<Movement>)>, n: nat)
    requires |accepted| == |requests| && |trace| == |requests| + 1 && n < |requests|
  {
    var r := requests[n];
    && (accepted[n] <==> Covered(trace[n].1, r.branch, r.lines))
    && Outcome(trace[n].0, trace[n].1, trace[n + 1].0, trace[n + 1].1, r.branch, r.lines, r.opening, accepted[n])
  }

  lemma TracedOneMore(requests: seq<Request>, n: nat, accepted: seq<bool>, trace: seq<(seq<Layer>, seq<Movement>)>,
                      ls0: seq<Layer>, mv0: seq<Movement>, ls: seq<Layer>, mv: seq<Movement>, ok: bool)
    requires n < |requests| && Traced(requests[..n], accepted, trace) && trace[n] == (ls0, mv0)
    requires ok <==> Covered(mv0, requests[n].branch, requests[n].lines)
    requires Outcome(ls0, mv0, ls, mv, requests[n].branch, requests[n].lines, requests[n].opening, ok)
    ensures Traced(requests[..n + 1], accepted + [ok], trace + [(ls, mv)])
  {
    var all, acc, tr := requests[..n + 1], accepted + [ok], trace + [(ls, mv)];
    forall m | 0 <= m < n + 1 ensures StepTraced(all, acc, tr, m) {
      if m < n {
        assert StepTraced(requests[..n], accepted, trace, m);
        assert all[m] == requests[..n][m] && acc[m] == accepted[m] && tr[m] == trace[m] && tr[m + 1] == trace[m + 1];
      } else {
        assert all[m] == requests[n] && acc[m] == ok && tr[m] == (ls0, mv0) && tr[m + 1] == (ls, mv);
      }
    }
  }

  // Each audit line brackets its line with the quantities at that moment; the last one of a position
  // ends at the position's new balance.
  function AuditAt(onHand: int, lines: seq<Line>, n: nat): AuditLine
    requires n < |lines|
  {
    var item := lines[n].item;
    AuditLine(item, onHand + NetDelta(lines[..n], item), lines[n].delta, onHand + NetDelta(lines[..n + 1], item))
  }

  ghost predicate Audited(before: seq<Movement>, after: seq<Movement>, branch: nat, lines: seq<Line>,
                          audit: seq<AuditLine>) {
    && |audit| == |lines|
    && (forall n {:trigger audit[n]} :: 0 <= n < |lines| ==>
          audit[n] == AuditAt(Balance(before, branch, lines[n].item), lines, n))
    && (forall n {:trigger audit[n]} ::
        0 <= n < |lines| && (forall k :: n < k < |lines| ==> lines[k].item != lines[n].item) ==>
          audit[n].after == Balance(after, branch, lines[n].item))
  }

  // No stock-out, and no line of a position that started non-negative, leaves a negative quantity.
  ghost predicate NeverNegative(before: seq<Movement>, branch: nat, lines: seq<Line>, audit: seq<AuditLine>) {
    |audit| == |lines| && forall n {:trigger audit[n]} :: 0 <= n < |lines| ==>
      (lines[n].delta < 0 || Balance(before, branch, lines[n].item) >= 0 ==> audit[n].after >= 0)
  }

  lemma CoveredAuditNonNegative(before: seq<Movement>, after: seq<Movement>, branch: nat, lines: seq<Line>,
                                audit: seq<AuditLine>)
    requires Covered(before, branch, lines) && Audited(before, after, branch, lines, audit)
    ensures NeverNegative(before, branch, lines, audit)
  {
    forall n | 0 <= n < |lines| && (lines[n].delta < 0 || Balance(before, branch, lines[n].item) >= 0)
      ensures audit[n].after >= 0
    {
      AfterLineNonNegative(before, branch, lines, n);
    }
  }

  lemma AfterLineNonNegative(before: seq<Movement>, branch: nat, lines: seq<Line>, n: nat)
    requires Covered(before, branch, lines) && n < |lines|
    requires lines[n].delta < 0 || Balance(before, branch, lines[n].item) >= 0
    ensures Balance(before, branch, lines[n].item) + NetDelta(lines[..n + 1], lines[n].item) >= 0
  {
    if lines[n].delta < 0 { DemandOf(lines, n); }
    CoveredPrefix(before, branch, lines, n + 1, lines[n].item);
  }

  lemma AdjustedOneMore(mv0: seq<Movement>, mv1: seq<Movement>, mv2: seq<Movement>, branch: nat, lines: seq<Line>,
                        n: nat)
    requires n < |lines| && Adjusted(mv0, mv1, branch, lines[..n]) &&
      Shifted(mv1, mv2, branch, lines[n].item, lines[n].delta)
    ensures Adjusted(mv0, mv2, branch, lines[..n + 1])
  {
    forall i { LinesOneMore(lines, n, i); }
  }

  lemma LineStaysInStep(mv0: seq<Movement>, ls0: seq<Layer>, mv1: seq<Movement>, ls1: seq<Layer>, mv2: seq<Movement>,
                        ls2: seq<Layer>, branch: nat, lines: seq<Line>, n: nat)
    requires n < |lines| && Covered(mv0, branch, lines)
    requires Adjusted(mv0, mv1, branch, lines[..n]) && Adjusted(mv0, mv2, branch, lines[..n + 1])
    requires StaysInStep(ls0, mv0, ls1, mv1) && Shifted(mv1, mv2, branch, lines[n].item, lines[n].delta)
    requires Elsewhere(ls1, ls2, branch, lines[n].item)
    requires var l, stock := lines[n], Stock(ls1, branch, lines[n].item);
      Stock(ls2, branch, l.item) == if l.delta > 0 then stock + l.delta else stock - Min(-l.delta, stock)
    ensures StaysInStep(ls0, mv0, ls2, mv2)
  {
    var l := lines[n];
    if l.delta < 0 {
      // The balance after this line is still non-negative, so the layers covered it.
      DemandOf(lines, n);
      CoveredPrefix(mv0, branch, lines, n + 1, l.item);
    }
  }

  lemma {:induction false} NetDeltaDone(lines: seq<Line>, n: nat, item: Item)
    requires n <= |lines| && forall k :: n <= k < |lines| ==> lines[k].item != item
    ensures NetDelta(lines, item) == NetDelta(lines[..n], item)
    decreases |lines|
  {
    if n == |lines| {
      assert lines[..n] == lines;
    } else {
      assert lines[..|lines| - 1][..n] == lines[..n];
      NetDeltaDone(lines[..|lines| - 1], n, item);
    }
  }

  lemma AuditIsTrue(before: seq<Movement>, after: seq<Movement>, branch: nat, lines: seq<Line>, onHand: map<Item, int>,
                    audit: seq<AuditLine>)
    requires Adjusted(before, after, branch, lines) && |audit| == |lines|
    requires forall l :: l in lines ==> l.item in onHand
    requires forall i :: i in onHand ==> onHand[i] == Balance(before, branch, i)
    requires forall n {:trigger audit[n]} :: 0 <= n < |lines| ==> audit[n] == AuditAt(onHand[lines[n].item], lines, n)
    ensures Audited(before, after, branch, lines, audit)
  {
    forall n | 0 <= n < |lines| && (forall k :: n < k < |lines| ==> lines[k].item != lines[n].item)
      ensures audit[n].after == Balance(after, branch, lines[n].item)
    {
      NetDeltaDone(lines, n + 1, lines[n].item);
    }
  }

  lemma DrainedValue(layers: seq<Layer>, branch: nat, item: Item, qty: nat)
    ensures var units, taken := Units(layers, At(branch, item)), Min(qty, Stock(layers, branch, item));
      LayerValue(layers, branch, item) ==
        Sum(units[..taken]) + LayerValue(Drained(layers, At(branch, item), qty), branch, item)
  {
    var units, taken := Units(layers, At(branch, item)), Min(qty, Stock(layers, branch, item));
    DrainedUnits(layers, At(branch, item), qty);
    assert units == units[..taken] + units[taken..];
    SumAppend(units[..taken], units[taken..]);
  }
}
