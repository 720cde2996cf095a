/** stock_levels: the balance per position that a row trigger on stock_movements keeps up to date. */
module StockLevels {
  import opened Options

  // UUIDs are numbers; 0 is the zero UUID.
  const ZERO_UUID := 0

  datatype Position = Position(business: nat, branch: nat, product: nat, variation: Option<nat>)
  datatype LevelKey = LevelKey(business: nat, branch: nat, product: nat, variationKey: nat)

  // Quantities in units of the fourth decimal.
  datatype Movement = Movement(at: Position, qty: int, deleted: bool)

  // A row slot is emptied by DELETE.
  type Slot = Option<Movement>

  function KeyOf(p: Position): LevelKey {
    LevelKey(p.business, p.branch, p.product, if p.variation.None? then ZERO_UUID else p.variation.value)
  }

  /** Two positions share a key exactly if they differ at most in a missing against a zero-UUID variation. */
  lemma SharedKey(p: Position, q: Position)
    ensures KeyOf(p) == KeyOf(q) <==>
      && p.business == q.business && p.branch == q.branch && p.product == q.product
      && (p.variation == q.variation || (p.variation.None? && q.variation == Some(ZERO_UUID))
          || (q.variation.None? && p.variation == Some(ZERO_UUID)))
  {
  }

  // What a row contributes to the balance stored under a key.
  function Live(s: Slot, k: LevelKey): int {
    if s.Some? && !s.value.deleted && KeyOf(s.value.at) == k then s.value.qty else 0
  }

  function LiveAt(s: Slot, p: Position): int {
    if s.Some? && !s.value.deleted && s.value.at == p then s.value.qty else 0
  }

  // SUM(qty) over live rows, by level key and by position.
  function SumByKey(rows: seq<Slot>, k: LevelKey): int {
    if rows == [] then 0 else SumByKey(rows[..|rows| - 1], k) + Live(rows[|rows| - 1], k)
  }

  function Balance(rows: seq<Slot>, p: Position): int {
    if rows == [] then 0 else Balance(rows[..|rows| - 1], p) + LiveAt(rows[|rows| - 1], p)
  }

  lemma {:induction false} SumAfterUpdate(rows: seq<Slot>, i: nat, s: Slot, k: LevelKey)
    requires i < |rows|
    ensures SumByKey(rows[i := s], k) == SumByKey(rows, k) - Live(rows[i], k) + Live(s, k)
  {
    var n := |rows| - 1;
    if i < n {
      SumAfterUpdate(rows[..n], i, s, k);
      assert rows[i := s][..n] == rows[..n][i := s];
    } else {
      assert rows[i := s][..n] == rows[..n];
    }
  }

  // NULL and the zero UUID share a key.
  function Twin(p: Position): Position
    requires KeyOf(p).variationKey == ZERO_UUID
  {
    p.(variation := if p.variation.None? then Some(ZERO_UUID) else None)
  }

  lemma {:induction false} SumSplitsByPosition(rows: seq<Slot>, p: Position)
    ensures SumByKey(rows, KeyOf(p)) ==
      Balance(rows, p) + if KeyOf(p).variationKey == ZERO_UUID then Balance(rows, Twin(p)) else 0
  {
    if rows != [] { SumSplitsByPosition(rows[..|rows| - 1], p); }
  }

  function LevelQty(levels: map<LevelKey, int>, k: LevelKey): int {
    if k in levels then levels[k] else 0
  }

  datatype Statement = Insert(m: Movement) | Update(i: nat, m: Movement) | Delete(i: nat)

  function Executed(rows: seq<Slot>, st: Statement): seq<Slot> {
    match st
    case Insert(m) => rows + [Some(m)]
    case Update(i, m) => if i < |rows| && rows[i].Some? then rows[i := Some(m)] else rows
    case Delete(i) => if i < |rows| then rows[i := None] else rows
  }

  function Replayed(rows: seq<Slot>, sts: seq<Statement>): seq<Slot> {
    if sts == [] then rows else Executed(Replayed(rows, sts[..|sts| - 1]), sts[|sts| - 1])
  }

  // No two live movements at different positions share a key.
  ghost predicate KeysUnique(rows: seq<Slot>) {
    forall i, j :: 0 <= i < |rows| && 0 <= j < |rows| && IsLive(rows[i]) && IsLive(rows[j]) ==>
      (KeyOf(rows[i].value.at) == KeyOf(rows[j].value.at) ==> rows[i].value.at == rows[j].value.at)
  }

  ghost predicate IsLive(s: Slot) { s.Some? && !s.value.deleted }

  class Ledger {
    var rows: seq<Slot>
    var levels: map<LevelKey, int>

    // Every stored balance is the sum of the live movements under its key; a missing one counts as 0.
    ghost predicate InStep()
      reads this
    {
      forall k :: LevelQty(levels, k) == SumByKey(rows, k)
    }

    constructor ()
      ensures rows == [] && InStep()
    {
      rows, levels := [], map[];
    }

    // INSERT ... ON CONFLICT DO UPDATE SET qty = qty + EXCLUDED.qty
    method ApplyStock(at: Position, delta: int)
      modifies this`levels
      ensures forall k :: LevelQty(levels, k) == LevelQty(old(levels), k) + if k == KeyOf(at) then delta else 0
    {
      var k := KeyOf(at);
      levels := levels[k := if k in levels then levels[k] + delta else delta];
    }

    // sync_stock_levels(), for OLD and NEW as the operation has them.
    method Trigger(was: Slot, is_: Slot)
      requires was.Some? || is_.Some?
      modifies this`levels
      ensures forall k :: LevelQty(levels, k) == LevelQty(old(levels), k) - Live(was, k) + Live(is_, k)
    {
      var oldQ := if was.Some? && !was.value.deleted then was.value.qty else 0;
      var newQ := if is_.Some? && !is_.value.deleted then is_.value.qty else 0;
      if was.Some? && is_.Some? && was.value.at == is_.value.at {
        if newQ != oldQ { ApplyStock(is_.value.at, newQ - oldQ); }
        return;
      }
      if was.Some? && oldQ != 0 { ApplyStock(was.value.at, -oldQ); }
      if is_.Some? && newQ != 0 { ApplyStock(is_.value.at, newQ); }
    }

    method Execute(st: Statement)
      requires InStep()
      modifies this
      ensures InStep() && rows == Executed(old(rows), st)
    {
      match st
      case Insert(m) =>
        rows := rows + [Some(m)];
        Trigger(None, Some(m));
        assert rows[..|rows| - 1] == old(rows);
      case Update(i, m) =>
        if i < |rows| && rows[i].Some? {
          forall k { SumAfterUpdate(rows, i, Some(m), k); }
          var was := rows[i];
          rows := rows[i := Some(m)];
          Trigger(was, Some(m));
        }
      case Delete(i) =>
        if i < |rows| && rows[i].Some? {
          forall k { SumAfterUpdate(rows, i, None, k); }
          var was := rows[i];
          rows := rows[i := None];
          Trigger(was, None);
        } else if i < |rows| {
          assert rows[i := None] == rows;
        }
    }

    /** Any sequence of inserts, updates (moves and soft deletes included) and deletes. */
    method ExecuteAll(sts: seq<Statement>)
      requires InStep()
      modifies this
      ensures rows == Replayed(old(rows), sts)
      ensures forall k :: LevelQty(levels, k) == SumByKey(rows, k)
    {
      var i := 0;
      assert sts[..0] == [];
      while i < |sts|
        invariant 0 <= i <= |sts| && InStep() && rows == Replayed(old(rows), sts[..i])
      {
        assert sts[..i + 1][..i] == sts[..i];
        Execute(sts[i]);
        i := i + 1;
      }
      assert sts[..i] == sts;
    }

    /**
     * The migration's initial fill, one row per group of live movements: it fails on the unique key exactly
     * when a live zero-UUID variation stands beside NULL, and otherwise starts the levels in step.
     */
    method Backfill() returns (ok: bool)
      modifies this`levels
      ensures ok <==> KeysUnique(rows)
      ensures if ok then InStep() else levels == old(levels)
    {
      var groups := Groups(rows);
      ok := forall p, q :: p in groups && q in groups && KeyOf(p) == KeyOf(q) ==> p == q;
      assert forall i :: 0 <= i < |rows| && IsLive(rows[i]) ==> rows[i].value.at in groups;
      if ok {
        levels := map p | p in groups :: KeyOf(p) := Balance(rows, p);
        forall k ensures LevelQty(levels, k) == SumByKey(rows, k) {
          GroupSum(rows, groups, k);
        }
      }
    }
  }

  function Groups(rows: seq<Slot>): set<Position> {
    set s | s in rows && s.Some? && !s.value.deleted :: s.value.at
  }

  lemma {:induction false} NoGroupNoSum(rows: seq<Slot>, p: Position)
    requires p !in Groups(rows)
    ensures Balance(rows, p) == 0
  {
    if rows != [] {
      var front, s := rows[..|rows| - 1], rows[|rows| - 1];
      assert s in rows && forall x :: x in front ==> x in rows;
      assert Groups(front) <= Groups(rows);
      NoGroupNoSum(front, p);
    }
  }

  lemma GroupSum(rows: seq<Slot>, groups: set<Position>, k: LevelKey)
    requires groups == Groups(rows)
    requires forall p, q :: p in groups && q in groups && KeyOf(p) == KeyOf(q) ==> p == q
    ensures SumByKey(rows, k) ==
      if exists p :: p in groups && KeyOf(p) == k then (var p :| p in groups && KeyOf(p) == k; Balance(rows, p)) else 0
  {
    if p :| p in groups && KeyOf(p) == k {
      SumSplitsByPosition(rows, p);
      if k.variationKey == ZERO_UUID { NoGroupNoSum(rows, Twin(p)); }
    } else {
      var v := Position(k.business, k.branch, k.product, Some(k.variationKey));
      SumSplitsByPosition(rows, v);
      NoGroupNoSum(rows, v);
      if k.variationKey == ZERO_UUID { NoGroupNoSum(rows, Twin(v)); }
    }
  }

  /**
   * Levels in step with the ledger show a position's own balance exactly when the position sharing its key
   * (NULL against the zero UUID) sums to nothing; every other position's level is its balance.
   */
  lemma LevelIsBalance(rows: seq<Slot>, levels: map<LevelKey, int>, p: Position)
    requires forall k :: LevelQty(levels, k) == SumByKey(rows, k)
    ensures LevelQty(levels, KeyOf(p)) == Balance(rows, p) <==>
      (KeyOf(p).variationKey == ZERO_UUID ==> Balance(rows, Twin(p)) == 0)
  {
    SumSplitsByPosition(rows, p);
  }

  /** In particular whenever no live movement names the zero UUID as its variation. */
  lemma NoZeroUuidLevelIsBalance(rows: seq<Slot>, levels: map<LevelKey, int>, p: Position)
    requires forall k :: LevelQty(levels, k) == SumByKey(rows, k)
    requires forall q :: q in Groups(rows) ==> q.variation != Some(ZERO_UUID)
    requires p.variation != Some(ZERO_UUID)
    ensures LevelQty(levels, KeyOf(p)) == Balance(rows, p)
  {
    if KeyOf(p).variationKey == ZERO_UUID { NoGroupNoSum(rows, Twin(p)); }
    LevelIsBalance(rows, levels, p);
  }
}
