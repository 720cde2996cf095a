/** The migration's numbering of the rows that existed before the change feed. */
module Backfill {
  import opened Collections
  import opened Options

  type Business = nat

  // A table's rows in (created_at, id) order; rows of a business without a counter stay unnumbered.
  datatype Row = Row(business: Business, changeSeq: Option<nat>)
  type TableRows = seq<Row>

  // How many rows of b the first rows hold: row_number() OVER (PARTITION BY business_id ...).
  function Count(rows: TableRows, b: Business): nat {
    if rows == [] then 0
    else Count(rows[..|rows| - 1], b) + if rows[|rows| - 1].business == b then 1 else 0
  }

  // The numbers b's rows carry, in row order.
  function SeqsOf(rows: TableRows, b: Business): seq<nat> {
    if rows == [] then []
    else
      var last := rows[|rows| - 1];
      SeqsOf(rows[..|rows| - 1], b) + if last.business == b && last.changeSeq.Some? then [last.changeSeq.value] else []
  }

  function AllSeqsOf(tables: seq<TableRows>, b: Business): seq<nat> {
    if tables == [] then []
    else AllSeqsOf(tables[..|tables| - 1], b) + SeqsOf(tables[|tables| - 1], b)
  }

  ghost predicate Unnumbered(rows: TableRows) {
    forall r :: r in rows ==> r.changeSeq.None?
  }

  // The rows are the same but for numbers, given only to businesses with a counter.
  ghost predicate SameRows(rows: TableRows, numbered: TableRows, businesses: set<Business>) {
    && |numbered| == |rows|
    && forall i :: 0 <= i < |rows| ==>
         numbered[i].business == rows[i].business && (rows[i].business !in businesses ==> numbered[i] == rows[i])
  }

  // b's rows carry the numbers after its old counter, up to its new one.
  ghost predicate Filled(rows: TableRows, numbered: TableRows, from: nat, to: nat, b: Business) {
    to == from + Count(rows, b) && SeqsOf(numbered, b) == Range(from + 1, to + 1)
  }

  lemma FilledOneMore(rows: TableRows, numbered: TableRows, from: nat, to: nat, b: Business, r: Row, n: nat)
    requires Filled(rows, numbered, from, to, b)
    requires r.business == b ==> n == to + 1
    ensures Filled(rows + [r], numbered + [r.(changeSeq := Some(n))], from, if r.business == b then n else to, b)
  {
    assert (rows + [r])[..|rows|] == rows;
    assert (numbered + [r.(changeSeq := Some(n))])[..|numbered|] == numbered;
  }

  lemma FilledOther(rows: TableRows, numbered: TableRows, from: nat, to: nat, b: Business, r: Row)
    requires Filled(rows, numbered, from, to, b) && r.business != b
    ensures Filled(rows + [r], numbered + [r], from, to, b)
  {
    assert (rows + [r])[..|rows|] == rows && (numbered + [r])[..|numbered|] == numbered;
  }

  lemma SameRowsOneMore(rows: TableRows, numbered: TableRows, businesses: set<Business>, r: Row, n: Row)
    requires SameRows(rows, numbered, businesses) && n.business == r.business && (r.business !in businesses ==> n == r)
    ensures SameRows(rows + [r], numbered + [n], businesses)
  {
  }

  ghost predicate EachFilled(rows: TableRows, numbered: TableRows, counters: map<Business, nat>,
                             advanced: map<Business, nat>) {
    advanced.Keys == counters.Keys && forall b :: b in counters ==> Filled(rows, numbered, counters[b], advanced[b], b)
  }

  lemma AllNumbered(rows: TableRows, numbered: TableRows, counters: map<Business, nat>, advanced: map<Business, nat>,
                    r: Row, n: nat)
    requires EachFilled(rows, numbered, counters, advanced) && r.business in counters && n == advanced[r.business] + 1
    ensures EachFilled(rows + [r], numbered + [r.(changeSeq := Some(n))], counters, advanced[r.business := n])
  {
    forall b | b in counters
      ensures Filled(rows + [r], numbered + [r.(changeSeq := Some(n))], counters[b], advanced[r.business := n][b], b)
    {
      FilledOneMore(rows, numbered, counters[b], advanced[b], b, r, n);
    }
  }

  lemma AllPassed(rows: TableRows, numbered: TableRows, counters: map<Business, nat>, advanced: map<Business, nat>,
                  r: Row)
    requires EachFilled(rows, numbered, counters, advanced) && r.business !in counters
    ensures EachFilled(rows + [r], numbered + [r], counters, advanced)
  {
    forall b | b in counters ensures Filled(rows + [r], numbered + [r], counters[b], advanced[b], b) {
      FilledOther(rows, numbered, counters[b], advanced[b], b, r);
    }
  }

  /** _backfill_sql: numbers one table's rows after each business's counter, then advances the counters. */
  method BackfillTable(rows: TableRows, counters: map<Business, nat>)
    returns (numbered: TableRows, advanced: map<Business, nat>)
    requires Unnumbered(rows)
    ensures SameRows(rows, numbered, counters.Keys) && advanced.Keys == counters.Keys
    ensures forall b :: b in counters ==> Filled(rows, numbered, counters[b], advanced[b], b)
  {
    numbered, advanced := [], counters;
    ghost var done: TableRows := [];
    var i := 0;
    while i < |rows|
      invariant 0 <= i <= |rows| && done == rows[..i]
      invariant SameRows(done, numbered, counters.Keys)
      invariant EachFilled(done, numbered, counters, advanced)
    {
      var r := rows[i];
      if r.business in counters {
        var n := advanced[r.business] + 1;
        SameRowsOneMore(done, numbered, counters.Keys, r, r.(changeSeq := Some(n)));
        AllNumbered(done, numbered, counters, advanced, r, n);
        advanced := advanced[r.business := n];
        numbered := numbered + [r.(changeSeq := Some(n))];
      } else {
        SameRowsOneMore(done, numbered, counters.Keys, r, r);
        AllPassed(done, numbered, counters, advanced, r);
        numbered := numbered + [r];
      }
      done := done + [r];
      i := i + 1;
    }
    assert rows[..i] == rows;
  }

  function CountAll(tables: seq<TableRows>, b: Business): nat {
    if tables == [] then 0 else CountAll(tables[..|tables| - 1], b) + Count(tables[|tables| - 1], b)
  }

  ghost predicate AllFilled(tables: seq<TableRows>, numbered: seq<TableRows>, last: nat, b: Business) {
    last == CountAll(tables, b) && AllSeqsOf(numbered, b) == Range(1, last + 1)
  }

  lemma AllFilledOneMore(tables: seq<TableRows>, numbered: seq<TableRows>, last: nat, b: Business,
                         rows: TableRows, filled: TableRows, next: nat)
    requires AllFilled(tables, numbered, last, b) && Filled(rows, filled, last, next, b)
    ensures AllFilled(tables + [rows], numbered + [filled], next, b)
  {
    assert (tables + [rows])[..|tables|] == tables && (numbered + [filled])[..|numbered|] == numbered;
    RangeJoins(1, last + 1, next + 1);
  }

  /**
   * The loop over all tables, every counter starting at 0: each business's numbers across all its rows are
   * exactly 1, 2, ..., last_seq in table order, and last_seq is how many rows it has.
   */
  method BackfillAll(tables: seq<TableRows>, businesses: set<Business>)
    returns (numbered: seq<TableRows>, counters: map<Business, nat>)
    requires forall t :: t in tables ==> Unnumbered(t)
    ensures counters.Keys == businesses && |numbered| == |tables|
    ensures forall t :: 0 <= t < |tables| ==> SameRows(tables[t], numbered[t], businesses)
    ensures forall b :: b in businesses ==> AllSeqsOf(numbered, b) == Range(1, counters[b] + 1)
    ensures forall b :: b in businesses ==> counters[b] == CountAll(tables, b)
  {
    numbered, counters := [], map b | b in businesses :: 0;
    var n := 0;
    while n < |tables|
      invariant 0 <= n <= |tables| && |numbered| == n && counters.Keys == businesses
      invariant forall t :: 0 <= t < n ==> SameRows(tables[t], numbered[t], businesses)
      invariant forall b :: b in businesses ==> AllFilled(tables[..n], numbered, counters[b], b)
    {
      assert tables[n] in tables && tables[..n + 1] == tables[..n] + [tables[n]];
      var rows, advanced := BackfillTable(tables[n], counters);
      forall b | b in businesses {
        AllFilledOneMore(tables[..n], numbered, counters[b], b, tables[n], rows, advanced[b]);
      }
      numbered, counters := numbered + [rows], advanced;
      n := n + 1;
    }
    assert tables[..n] == tables;
  }
}
