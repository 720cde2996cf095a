/** Running a deletion plan against the rows of the cleaned tables. */
module Cleanup {
  import opened Collections
  import opened Graphs
  import opened DeletionPlan

  type RowId = nat
  type Business = nat

  // `nulls` are the columns currently NULL; `target` is the row each key's columns name when none is.
  datatype Row = Row(table: Table, business: Business, nulls: set<Column>, target: map<ForeignKey, RowId>)
  type Db = map<RowId, Row>

  ghost predicate Refers(s: Schema, r: Row, fk: ForeignKey) {
    s.Scoped(fk) && fk.child == r.table && forall c :: c in fk.cols ==> c !in r.nulls
  }

  // Every foreign key in force names an existing row of the right table.
  ghost predicate Integrity(s: Schema, db: Db) {
    forall id, fk :: id in db && Refers(s, db[id], fk) ==>
      fk in db[id].target && db[id].target[fk] in db && db[db[id].target[fk]].table == fk.parent
  }

  ghost predicate SameTenant(s: Schema, db: Db) {
    forall id, fk :: id in db && Refers(s, db[id], fk) && fk in db[id].target && db[id].target[fk] in db ==>
      db[db[id].target[fk]].business == db[id].business
  }

  // The rows after nulling the columns `cols` and emptying the tables `gone` for the businesses `ids`.
  ghost function Cleaned(db: Db, ids: set<Business>, cols: set<(Table, Column)>, gone: set<Table>): Db {
    map id | id in db && !(db[id].business in ids && db[id].table in gone) ::
      if db[id].business in ids then WithNulls(db[id], cols) else db[id]
  }

  ghost function WithNulls(r: Row, cols: set<(Table, Column)>): Row {
    r.(nulls := r.nulls + set tc | tc in cols && tc.0 == r.table :: tc.1)
  }

  // A set of tables from which no key that is still in force is left dangling.
  ghost predicate Safe(s: Schema, cols: set<(Table, Column)>, gone: set<Table>) {
    forall fk :: s.Scoped(fk) && fk.parent in gone ==>
      fk.child in gone || (exists c :: c in fk.cols && (fk.child, c) in cols)
  }

  lemma CleanedIntegrity(s: Schema, db: Db, ids: set<Business>, cols: set<(Table, Column)>, gone: set<Table>)
    requires Integrity(s, db) && SameTenant(s, db) && Safe(s, cols, gone)
    ensures Integrity(s, Cleaned(db, ids, cols, gone))
  {
    var e := Cleaned(db, ids, cols, gone);
    forall id, fk | id in e && Refers(s, e[id], fk)
      ensures fk in e[id].target && e[id].target[fk] in e && e[e[id].target[fk]].table == fk.parent
    {
      assert Refers(s, db[id], fk);
      var to := db[id].target[fk];
      if db[to].business in ids && fk.parent in gone && fk.child !in gone {
        assert false;
      }
    }
  }

  // Every prefix of a correct plan's order is safe once its columns are nulled.
  lemma PrefixSafe(s: Schema, p: Plan, i: nat)
    requires s.Valid() && p.Plan? && Correct(s, p) && i <= |p.order|
    ensures Safe(s, p.nullify, Elems(p.order[..i]))
  {
    var gone := Elems(p.order[..i]);
    forall fk | s.Scoped(fk) && fk.parent in gone
      ensures fk.child in gone || (exists c :: c in fk.cols && (fk.child, c) in p.nullify)
    {
      if !s.Cyclic(fk) {
        BeforeInPrefix(p.order, fk.child, fk.parent, i);
      } else if fk.child != fk.parent {
        assert !s.Blocks(fk);
        assert s.Nulled(fk) && fk.cols[0] in fk.cols;
      }
    }
  }

  lemma BeforeInPrefix(order: seq<Table>, a: Table, b: Table, i: nat)
    requires Distinct(order) && Before(order, a, b) && i <= |order| && b in order[..i]
    ensures a in order[..i]
  {
    var m, n :| 0 <= m < n < |order| && order[m] == a && order[n] == b;
    assert n < i;
    assert order[..i][m] == a;
  }

  ghost function NullIn(db: Db, ids: set<Business>, t: Table, c: Column): Db {
    map id | id in db ::
      if db[id].table == t && db[id].business in ids then db[id].(nulls := db[id].nulls + {c}) else db[id]
  }

  ghost function DeletedFrom(db: Db, ids: set<Business>, t: Table): Db {
    map id | id in db && !(db[id].table == t && db[id].business in ids) :: db[id]
  }

  ghost function Others(db: Db, ids: set<Business>): Db {
    map id | id in db && db[id].business !in ids :: db[id]
  }

  // No NOT NULL column is NULL.
  ghost predicate NotNullHolds(s: Schema, db: Db) {
    forall id, c :: id in db && c in db[id].nulls ==> (db[id].table, c) in s.nullable
  }

  // Every foreign key and every NOT NULL column held after every statement.
  ghost predicate AlwaysIntact(s: Schema, seen: seq<Db>) {
    forall i :: 0 <= i < |seen| ==> Integrity(s, seen[i]) && NotNullHolds(s, seen[i])
  }

  lemma IntactOneMore(s: Schema, seen: seq<Db>, rows: Db, more: seq<Db>)
    requires AlwaysIntact(s, seen) && Integrity(s, rows) && NotNullHolds(s, rows) && more == seen + [rows]
    ensures AlwaysIntact(s, more)
  {
  }

  // Rows that row triggers insert behind a statement, for the tenants, into the tables they maintain.
  datatype Triggers = Triggers(tables: set<Table>, onNull: map<(Table, Column), Db>, onDelete: map<Table, Db>) {
    function ForNull(tc: (Table, Column)): (written: Db)
      ensures forall id, r :: (id, r) in written.Items <==> tc in onNull && id in onNull[tc] && onNull[tc][id] == r
    {
      if tc in onNull then onNull[tc] else map[]
    }

    function ForDelete(t: Table): (written: Db)
      ensures forall id, r :: (id, r) in written.Items <==> t in onDelete && id in onDelete[t] && onDelete[t][id] == r
    {
      if t in onDelete then onDelete[t] else map[]
    }

    ghost predicate Writes(db: Db, ids: set<Business>, extra: Db) {
      extra.Keys !! db.Keys && forall id :: id in extra ==> extra[id].business in ids && extra[id].table in tables
    }

    // Such tables reference no cleaned table, and the inserted rows are new ones of the tenants.
    ghost predicate Valid(s: Schema, db: Db, ids: set<Business>) {
      && (forall fk :: s.Scoped(fk) ==> fk.child !in tables)
      && (forall tc :: Writes(db, ids, ForNull(tc)) && NotNullHolds(s, ForNull(tc)))
      && (forall t :: Writes(db, ids, ForDelete(t)) && NotNullHolds(s, ForDelete(t)))
    }
  }

  // Rows behind the clean-up's back do no harm to references.
  lemma ExtraIntegrity(s: Schema, tr: Triggers, db: Db, ids: set<Business>, rows: Db, extra: Db)
    requires tr.Valid(s, db, ids) && tr.Writes(db, ids, extra) && rows.Keys <= db.Keys && Integrity(s, rows)
    ensures Integrity(s, rows + extra)
  {
  }

  lemma NullBoth(rows: Db, extra: Db, ids: set<Business>, t: Table, c: Column)
    ensures NullIn(rows + extra, ids, t, c) == NullIn(rows, ids, t, c) + NullIn(extra, ids, t, c)
  {
  }

  lemma DeleteBoth(rows: Db, extra: Db, ids: set<Business>, t: Table)
    requires rows.Keys !! extra.Keys
    ensures DeletedFrom(rows + extra, ids, t) == DeletedFrom(rows, ids, t) + DeletedFrom(extra, ids, t)
  {
  }

  // A statement treats the extra rows like the others and leaves them extra.
  lemma NullExtra(tr: Triggers, db: Db, ids: set<Business>, rows: Db, extra: Db, t: Table, c: Column, more: Db)
    requires tr.Writes(db, ids, extra) && tr.Writes(db, ids, more)
    ensures NullIn(rows + extra, ids, t, c) + more == NullIn(rows, ids, t, c) + (NullIn(extra, ids, t, c) + more)
    ensures tr.Writes(db, ids, NullIn(extra, ids, t, c) + more)
  {
    NullBoth(rows, extra, ids, t, c);
    MergeTwice(NullIn(rows, ids, t, c), NullIn(extra, ids, t, c), more);
  }

  lemma DeleteExtra(tr: Triggers, db: Db, ids: set<Business>, rows: Db, extra: Db, t: Table, more: Db)
    requires tr.Writes(db, ids, extra) && tr.Writes(db, ids, more) && rows.Keys <= db.Keys
    ensures DeletedFrom(rows + extra, ids, t) + more == DeletedFrom(rows, ids, t) + (DeletedFrom(extra, ids, t) + more)
    ensures tr.Writes(db, ids, DeletedFrom(extra, ids, t) + more)
  {
    DeleteBoth(rows, extra, ids, t);
    MergeTwice(DeletedFrom(rows, ids, t), DeletedFrom(extra, ids, t), more);
  }

  lemma MergeTwice(a: Db, b: Db, c: Db)
    ensures a + b + c == a + (b + c)
  {
  }

  lemma DeletedOneMore(s: Schema, p: Plan, ids: set<Business>, db: Db, i: nat)
    requires s.Valid() && p.Plan? && Correct(s, p) && i < |p.order|
    requires Integrity(s, db) && SameTenant(s, db)
    ensures var t := p.order[i];
            var before := Cleaned(db, ids, p.nullify, Elems(p.order[..i]));
            var after := Cleaned(db, ids, p.nullify, Elems(p.order[..i + 1]));
            && after == DeletedFrom(before, ids, t) && Integrity(s, after)
            && (Counts(db, p.order, ids)[t] == 0 ==> after == before)
  {
    var t, gone := p.order[i], Elems(p.order[..i]);
    assert Elems(p.order[..i + 1]) == gone + {t};
    CleanedDelete(db, ids, p.nullify, gone, t);
    PrefixSafe(s, p, i + 1);
    CleanedIntegrity(s, db, ids, p.nullify, gone + {t});
    if Counts(db, p.order, ids)[t] == 0 { NothingToDelete(db, ids, p.nullify, gone, t); }
  }

  lemma NullKeepsNotNull(s: Schema, rows: Db, ids: set<Business>, t: Table, c: Column, more: Db)
    requires NotNullHolds(s, rows) && NotNullHolds(s, more) && (t, c) in s.nullable
    ensures NotNullHolds(s, NullIn(rows, ids, t, c) + more)
  {
  }

  lemma DeleteKeepsNotNull(s: Schema, rows: Db, ids: set<Business>, t: Table, more: Db)
    requires NotNullHolds(s, rows) && NotNullHolds(s, more)
    ensures NotNullHolds(s, DeletedFrom(rows, ids, t) + more)
  {
  }

  // The rows once the columns are nulled and the tables emptied, with the rows triggers added.
  ghost predicate Remains(tr: Triggers, db: Db, ids: set<Business>, cols: set<(Table, Column)>, gone: set<Table>,
                          rows: Db, extra: Db) {
    rows == Cleaned(db, ids, cols, gone) + extra && tr.Writes(db, ids, extra)
  }

  lemma RemainsAfterNull(s: Schema, ids: set<Business>, tr: Triggers, db: Db, done: set<(Table, Column)>,
                         tc: (Table, Column), rows: Db, extra: Db) returns (more: Db)
    requires Integrity(s, db) && SameTenant(s, db) && tr.Valid(s, db, ids)
    requires Remains(tr, db, ids, done, {}, rows, extra)
    ensures var next := NullIn(rows, ids, tc.0, tc.1) + tr.ForNull(tc);
            Remains(tr, db, ids, done + {tc}, {}, next, more) && Integrity(s, next)
  {
    CleanedNull(db, ids, done, tc.0, tc.1);
    NullExtra(tr, db, ids, Cleaned(db, ids, done, {}), extra, tc.0, tc.1, tr.ForNull(tc));
    more := NullIn(extra, ids, tc.0, tc.1) + tr.ForNull(tc);
    CleanedIntegrity(s, db, ids, done + {tc}, {});
    ExtraIntegrity(s, tr, db, ids, Cleaned(db, ids, done + {tc}, {}), more);
  }

  lemma RemainsAfterDelete(s: Schema, p: Plan, ids: set<Business>, tr: Triggers, db: Db, i: nat, rows: Db, extra: Db)
      returns (more: Db)
    requires s.Valid() && p.Plan? && Correct(s, p) && i < |p.order|
    requires Integrity(s, db) && SameTenant(s, db) && tr.Valid(s, db, ids)
    requires Remains(tr, db, ids, p.nullify, Elems(p.order[..i]), rows, extra)
    ensures var next := DeletedFrom(rows, ids, p.order[i]) + tr.ForDelete(p.order[i]);
            Remains(tr, db, ids, p.nullify, Elems(p.order[..i + 1]), next, more) && Integrity(s, next)
  {
    var t, cleaned := p.order[i], Cleaned(db, ids, p.nullify, Elems(p.order[..i]));
    DeletedOneMore(s, p, ids, db, i);
    DeleteExtra(tr, db, ids, cleaned, extra, t, tr.ForDelete(t));
    more := DeletedFrom(extra, ids, t) + tr.ForDelete(t);
    ExtraIntegrity(s, tr, db, ids, DeletedFrom(cleaned, ids, t), more);
  }

  // A table that held nothing of the businesses when the rows were counted is skipped.
  lemma RemainsAfterSkip(s: Schema, p: Plan, ids: set<Business>, tr: Triggers, db: Db, i: nat, rows: Db, extra: Db)
    requires s.Valid() && p.Plan? && Correct(s, p) && i < |p.order|
    requires Integrity(s, db) && SameTenant(s, db) && Counts(db, p.order, ids)[p.order[i]] == 0
    requires Remains(tr, db, ids, p.nullify, Elems(p.order[..i]), rows, extra)
    ensures Remains(tr, db, ids, p.nullify, Elems(p.order[..i + 1]), rows, extra)
  {
    DeletedOneMore(s, p, ids, db, i);
  }

  // When everything is emptied only the other businesses' rows and the triggers' ones are left.
  lemma LastToGo(s: Schema, p: Plan, ids: set<Business>, tr: Triggers, db: Db, rows: Db, extra: Db)
    requires s.Valid() && p.Plan? && Correct(s, p) && Integrity(s, db) && SameTenant(s, db)
    requires forall id :: id in db ==> db[id].table in s.tables
    requires Remains(tr, db, ids, p.nullify, Elems(p.order), rows, extra)
    ensures forall id :: id in rows && rows[id].business in ids ==> rows[id].table in tr.tables
    ensures Others(rows, ids) == Others(db, ids) && Integrity(s, Others(db, ids))
  {
    forall id | id in db ensures db[id].table in Elems(p.order) {
      assert db[id].table in Elems(s.tables);
    }
    CleanedAll(db, ids, p.nullify, Elems(p.order));
    PrefixSafe(s, p, |p.order|);
    assert p.order[..|p.order|] == p.order;
    CleanedIntegrity(s, db, ids, p.nullify, Elems(p.order));
    assert Others(Others(db, ids) + extra, ids) == Others(db, ids);
  }

  class Connection {
    var rows: Db
    ghost var seen: seq<Db>  // the rows after every statement so far

    // UPDATE t SET c = NULL WHERE business_id = ANY(ids) AND c IS NOT NULL, and its triggers.
    method NullColumn(t: Table, c: Column, ids: set<Business>, written: Db)
      modifies this
      ensures rows == NullIn(old(rows), ids, t, c) + written
      ensures seen == old(seen) + [rows]
    {
      ghost var db := rows;
      rows := map id | id in rows :: if rows[id].table == t && rows[id].business in ids && c !in rows[id].nulls
        then rows[id].(nulls := rows[id].nulls + {c}) else rows[id];
      forall id | id in db && c in db[id].nulls ensures db[id].(nulls := db[id].nulls + {c}) == db[id] {
        assert db[id].nulls + {c} == db[id].nulls;
      }
      rows := rows + written;
      seen := seen + [rows];
    }

    // DELETE FROM t WHERE business_id = ANY(ids), and its triggers.
    method DeleteFrom(t: Table, ids: set<Business>, written: Db)
      modifies this
      ensures rows == DeletedFrom(old(rows), ids, t) + written
      ensures seen == old(seen) + [rows]
    {
      rows := map id | id in rows && !(rows[id].table == t && rows[id].business in ids) :: rows[id];
      rows := rows + written;
      seen := seen + [rows];
    }

    // DELETE FROM businesses: refused while a table that does not cascade still holds a row of them.
    method DeleteBusinesses(ids: set<Business>, cascading: set<Table>)
      requires forall id :: id in rows && rows[id].business in ids ==> rows[id].table in cascading
      modifies this
      ensures rows == Others(old(rows), ids)
      ensures seen == old(seen) + [rows]
    {
      rows := map id | id in rows && !(rows[id].business in ids && rows[id].table in cascading) :: rows[id];
      seen := seen + [rows];
    }

    method NullAll(s: Schema, nullify: set<(Table, Column)>, ids: set<Business>, tr: Triggers) returns (ghost extra: Db)
      requires Integrity(s, rows) && SameTenant(s, rows) && AlwaysIntact(s, seen) && tr.Valid(s, rows, ids)
      requires NotNullHolds(s, rows) && nullify <= s.nullable
      modifies this
      ensures Remains(tr, old(rows), ids, nullify, {}, rows, extra)
      ensures AlwaysIntact(s, seen) && NotNullHolds(s, rows)
    {
      ghost var db, done := rows, {};
      extra := map[];
      var todo := nullify;
      CleanedNothing(db, ids);
      while todo != {}
        invariant done + todo == nullify && done !! todo
        invariant Remains(tr, db, ids, done, {}, rows, extra)
        invariant AlwaysIntact(s, seen) && NotNullHolds(s, rows)
        decreases todo
      {
        var tc :| tc in todo;
        extra := RemainsAfterNull(s, ids, tr, db, done, tc, rows, extra);
        NullKeepsNotNull(s, rows, ids, tc.0, tc.1, tr.ForNull(tc));
        ghost var before := seen;
        NullColumn(tc.0, tc.1, ids, tr.ForNull(tc));
        IntactOneMore(s, before, rows, seen);
        todo, done := todo - {tc}, done + {tc};
      }
    }

    method DeleteAll(s: Schema, p: Plan, ids: set<Business>, counts: map<Table, nat>, tr: Triggers, ghost db: Db,
                     ghost extra0: Db)
        returns (ghost extra: Db)
      requires s.Valid() && p.Plan? && Correct(s, p)
      requires Integrity(s, db) && SameTenant(s, db) && AlwaysIntact(s, seen) && tr.Valid(s, db, ids)
      requires counts == Counts(db, p.order, ids)
      requires Remains(tr, db, ids, p.nullify, {}, rows, extra0) && NotNullHolds(s, rows)
      modifies this
      ensures Remains(tr, db, ids, p.nullify, Elems(p.order), rows, extra)
      ensures AlwaysIntact(s, seen) && NotNullHolds(s, rows)
    {
      extra := extra0;
      var i := 0;
      assert Elems(p.order[..0]) == {};
      while i < |p.order|
        invariant 0 <= i <= |p.order|
        invariant Remains(tr, db, ids, p.nullify, Elems(p.order[..i]), rows, extra)
        invariant AlwaysIntact(s, seen) && NotNullHolds(s, rows)
      {
        var t := p.order[i];
        if counts[t] != 0 {
          extra := RemainsAfterDelete(s, p, ids, tr, db, i, rows, extra);
          DeleteKeepsNotNull(s, rows, ids, t, tr.ForDelete(t));
          ghost var before := seen;
          DeleteFrom(t, ids, tr.ForDelete(t));
          IntactOneMore(s, before, rows, seen);
        } else {
          RemainsAfterSkip(s, p, ids, tr, db, i, rows, extra);
        }
        i := i + 1;
      }
      assert p.order[..i] == p.order;
    }

    /**
     * The statements `--apply` executes, with whatever rows triggers insert behind them. Every foreign key and
     * every NOT NULL column holds after every one, the businesses themselves can go at the end, and exactly the
     * other businesses' rows remain, as they were.
     */
    method Apply(s: Schema, p: Plan, ids: set<Business>, tr: Triggers)
      requires s.Valid() && p.Plan? && Correct(s, p) && tr.Valid(s, rows, ids)
      requires Integrity(s, rows) && SameTenant(s, rows) && NotNullHolds(s, rows) && seen == []
      requires forall id :: id in rows ==> rows[id].table in s.tables
      modifies this
      ensures AlwaysIntact(s, seen)
      ensures rows == Others(old(rows), ids)
    {
      ghost var db := rows;
      var counts := Counts(rows, p.order, ids);
      NullifyNullable(s, p);
      ghost var extra := NullAll(s, p.nullify, ids, tr);
      extra := DeleteAll(s, p, ids, counts, tr, db, extra);
      LastToGo(s, p, ids, tr, db, rows, extra);
      ghost var before := seen;
      DeleteBusinesses(ids, tr.tables);
      IntactOneMore(s, before, rows, seen);
    }
  }

  /**
   * Planning and executing in one: the script goes through exactly when no NOT NULL key joins two different
   * tables of one cycle; either way integrity always holds and only the businesses' own rows go.
   */
  method CleanUp(connection: Connection, s: Schema, ids: set<Business>, tr: Triggers) returns (applied: bool)
    requires s.Valid() && connection.seen == [] && tr.Valid(s, connection.rows, ids)
    requires Integrity(s, connection.rows) && SameTenant(s, connection.rows) && NotNullHolds(s, connection.rows)
    requires forall id :: id in connection.rows ==> connection.rows[id].table in s.tables
    modifies connection
    ensures applied <==> forall fk :: !s.Blocks(fk)
    ensures AlwaysIntact(s, connection.seen)
    ensures connection.rows == if applied then Others(old(connection.rows), ids) else old(connection.rows)
  {
    var plan := MakePlan(s);
    applied := plan.Plan?;
    if applied {
      connection.Apply(s, plan, ids, tr);
    }
  }

  // How many rows each table holds for the businesses.
  function Counts(db: Db, order: seq<Table>, ids: set<Business>): map<Table, nat> {
    map t | t in order :: |set id | id in db && db[id].table == t && db[id].business in ids|
  }

  lemma CleanedNothing(db: Db, ids: set<Business>)
    ensures Cleaned(db, ids, {}, {}) == db
  {
    forall id | id in db ensures WithNulls(db[id], {}) == db[id] {}
  }

  lemma CleanedNull(db: Db, ids: set<Business>, cols: set<(Table, Column)>, t: Table, c: Column)
    ensures Cleaned(db, ids, cols + {(t, c)}, {}) == NullIn(Cleaned(db, ids, cols, {}), ids, t, c)
  {
    var e := Cleaned(db, ids, cols, {});
    forall id | id in e && e[id].business in ids
      ensures WithNulls(db[id], cols + {(t, c)}).nulls == if e[id].table == t then e[id].nulls + {c} else e[id].nulls
    {
      var cs := cols + {(t, c)};
      assert forall x :: x in (set tc | tc in cs && tc.0 == db[id].table :: tc.1) <==> (db[id].table, x) in cs;
      assert forall x :: x in (set tc | tc in cols && tc.0 == db[id].table :: tc.1) <==> (db[id].table, x) in cols;
    }
  }

  lemma CleanedDelete(db: Db, ids: set<Business>, cols: set<(Table, Column)>, gone: set<Table>, t: Table)
    ensures Cleaned(db, ids, cols, gone + {t}) == DeletedFrom(Cleaned(db, ids, cols, gone), ids, t)
  {
  }

  lemma NothingToDelete(db: Db, ids: set<Business>, cols: set<(Table, Column)>, gone: set<Table>, t: Table)
    requires |set id | id in db && db[id].table == t && db[id].business in ids| == 0
    ensures Cleaned(db, ids, cols, gone + {t}) == Cleaned(db, ids, cols, gone)
  {
    var doomed := set id | id in db && db[id].table == t && db[id].business in ids;
    assert forall id :: id in db && db[id].table == t && db[id].business in ids ==> id in doomed;
  }

  lemma CleanedAll(db: Db, ids: set<Business>, cols: set<(Table, Column)>, gone: set<Table>)
    requires forall id :: id in db ==> db[id].table in gone
    ensures Cleaned(db, ids, cols, gone) == Others(db, ids)
  {
  }
}
