/**
 * The pull side of the change feed. The committed history of one business is the list of its stamps:
 * the stamp at position i carries change_seq i + 1.
 */
module ChangeFeed {
  import opened Collections

  datatype Key = Key(entity: nat, id: nat)
  type Data = nat
  datatype Stamp = Stamp(key: Key, deleted: bool, data: Data)
  type Log = seq<Stamp>

  // The row currently carrying change_seq n: no later stamp replaced it.
  predicate Current(log: Log, n: nat) {
    1 <= n <= |log| && forall j :: n <= j < |log| ==> log[j].key != log[n - 1].key
  }

  // change_seq of the rows of one entity after the cursor: WHERE change_seq > :since
  ghost function Pending(log: Log, entity: nat, since: nat): set<nat> {
    set n: nat | since < n <= |log| && Current(log, n) && log[n - 1].key.entity == entity
  }

  // t holds the `limit` smallest members of s: ORDER BY ... LIMIT
  ghost predicate IsFirst(s: set<nat>, limit: nat, t: set<nat>) {
    && t <= s
    && |t| == (if |s| <= limit then |s| else limit)
    && forall a, b :: a in t && b in s && b !in t ==> a < b
  }

  ghost function Union(sets: seq<set<nat>>): set<nat> {
    if sets == [] then {} else sets[0] + Union(sets[1..])
  }

  lemma {:induction false} InUnion(sets: seq<set<nat>>, x: nat)
    ensures x in Union(sets) <==> exists e :: 0 <= e < |sets| && x in sets[e]
  {
    if sets != [] {
      InUnion(sets[1..], x);
      forall e | 0 < e < |sets| ensures sets[e] == sets[1..][e - 1] {}
    }
  }

  lemma Subset(a: set<nat>, b: set<nat>)
    requires a <= b
    ensures |a| <= |b| && (|a| == |b| ==> a == b)
  {
    assert b == a + (b - a);
  }

  /**
   * Asking every entity for one row more than the page holds is enough: the first `limit` of what
   * came back are the first `limit` of everything pending, and more came back exactly when more is pending.
   */
  lemma MergeIsFirst(pending: seq<set<nat>>, fetched: seq<set<nat>>, limit: nat, page: set<nat>)
    requires |fetched| == |pending|
    requires forall e :: 0 <= e < |fetched| ==> IsFirst(pending[e], limit + 1, fetched[e])
    requires IsFirst(Union(fetched), limit, page)
    ensures IsFirst(Union(pending), limit, page)
    ensures |Union(fetched)| > limit <==> |Union(pending)| > limit
    ensures |Union(fetched)| <= limit ==> Union(fetched) == Union(pending)
  {
    var all, got := Union(pending), Union(fetched);
    forall x | x in got ensures x in all {
      InUnion(fetched, x);
      InUnion(pending, x);
      var e :| 0 <= e < |fetched| && x in fetched[e];
      assert x in pending[e];
    }
    Subset(got, all);
    forall b | b in all && b !in got
      ensures |got| > limit && forall a :: a in page ==> a < b
    {
      Overflows(pending, fetched, limit, page, b);
    }
    assert got != all ==> exists b :: b in all && b !in got;
  }

  lemma Overflows(pending: seq<set<nat>>, fetched: seq<set<nat>>, limit: nat, page: set<nat>, b: nat)
    requires |fetched| == |pending|
    requires forall e :: 0 <= e < |fetched| ==> IsFirst(pending[e], limit + 1, fetched[e])
    requires IsFirst(Union(fetched), limit, page)
    requires b in Union(pending) && b !in Union(fetched)
    ensures |Union(fetched)| > limit && forall a :: a in page ==> a < b
  {
    InUnion(pending, b);
    InUnion(fetched, b);
    var e :| 0 <= e < |fetched| && b in pending[e];
    forall x | x in fetched[e] ensures x in Union(fetched) { InUnion(fetched, x); }
    Subset(fetched[e], Union(fetched));
    Subset(fetched[e], pending[e]);
    assert |fetched[e]| == limit + 1 > |page|;
    if fetched[e] <= page {
      Subset(fetched[e], page);
    }
    var c :| c in fetched[e] && c !in page;
    assert c < b;
  }

  // The device's copy of a key agrees with stamp n: the live data, or nothing for a tombstone.
  ghost predicate Holds(log: Log, rows: map<Key, Data>, n: nat)
    requires 1 <= n <= |log|
  {
    var s := log[n - 1];
    if s.deleted then s.key !in rows else s.key in rows && rows[s.key] == s.data
  }

  // Nothing at or before the cursor is missing from the device's copy, for the first `entities` entities.
  ghost predicate NoSkip(log: Log, entities: nat, cursor: nat, rows: map<Key, Data>) {
    && (forall n: nat :: n <= cursor && Current(log, n) && log[n - 1].key.entity < entities ==> Holds(log, rows, n))
    && (forall k :: k in rows ==> k.entity < entities && exists j :: 0 <= j < |log| && log[j].key == k)
  }

  // Later commits never invalidate what was applied up to the cursor.
  lemma NoSkipGrows(log: Log, more: Log, entities: nat, cursor: nat, rows: map<Key, Data>)
    requires NoSkip(log, entities, cursor, rows) && log <= more && cursor <= |log|
    ensures NoSkip(more, entities, cursor, rows)
  {
    forall n: nat | n <= cursor && Current(more, n) && more[n - 1].key.entity < entities
      ensures Holds(more, rows, n)
    {
      assert forall j :: n <= j < |log| ==> log[j] == more[j];
      assert Current(log, n);
    }
    forall k | k in rows ensures exists j :: 0 <= j < |more| && more[j].key == k {
      var j :| 0 <= j < |log| && log[j].key == k;
      assert more[j].key == k;
    }
  }

  // What the device holds after applying a page of changes.
  ghost predicate Applied(log: Log, rows: map<Key, Data>, page: set<nat>, rows': map<Key, Data>) {
    && (forall n :: n in page ==> 1 <= n <= |log| && Holds(log, rows', n))
    && (forall k :: NotOn(log, page, k) ==> (k in rows <==> k in rows') && (k in rows ==> rows'[k] == rows[k]))
  }

  ghost predicate NotOn(log: Log, page: set<nat>, k: Key) {
    forall n: nat :: n in page && 1 <= n <= |log| ==> log[n - 1].key != k
  }

  // One pull. marks[e] is how much of the history had committed when entity e's query ran;
  // fetched[e] is what that query returned; the page is cut from all of them together.
  datatype Pull = Pull(marks: seq<nat>, since: nat, limit: nat, fetched: seq<set<nat>>, page: set<nat>, next: nat) {

    ghost predicate Marked(log: Log) {
      && |marks| > 0 && since <= marks[0]
      && (forall i, j :: 0 <= i <= j < |marks| ==> marks[i] <= marks[j])
      && (forall e :: 0 <= e < |marks| ==> marks[e] <= |log|)
    }

    ghost predicate Of(log: Log) {
      && Marked(log) && limit > 0
      && |fetched| == |marks|
      && (forall e :: 0 <= e < |marks| ==> IsFirst(Pending(log[..marks[e]], e, since), limit + 1, fetched[e]))
      && IsFirst(Union(fetched), limit, page)
      && (if page == {} then next == since else next in page && forall n :: n in page ==> n <= next)
    }

    function First(): nat requires |marks| > 0 { marks[0] }

    function Last(): nat requires |marks| > 0 { marks[|marks| - 1] }

    ghost predicate HasMore() { |Union(fetched)| > limit }
  }

  ghost function PendingOf(log: Log, p: Pull): seq<set<nat>>
    requires p.Marked(log)
  {
    seq(|p.marks|, e requires 0 <= e < |p.marks| => Pending(log[..p.marks[e]], e, p.since))
  }

  // A current row stamped before its entity was read, and not past the page's cursor, is on the page.
  lemma SeenIsDelivered(log: Log, p: Pull, n: nat)
    requires p.Of(log) && p.since < n && Current(log, n)
    requires n <= p.next || !p.HasMore()
    requires log[n - 1].key.entity < |p.marks| && n <= p.marks[log[n - 1].key.entity]
    ensures n in p.page
  {
    var e := log[n - 1].key.entity;
    var pending := PendingOf(log, p);
    assert Current(log[..p.marks[e]], n);
    assert n in pending[e];
    InUnion(pending, n);
    MergeIsFirst(pending, p.fetched, p.limit, p.page);
    if !p.HasMore() {
      Subset(p.page, Union(p.fetched));
    }
  }

  lemma PageMember(log: Log, p: Pull, n: nat)
    requires p.Of(log) && n in p.page
    ensures 1 <= n <= |log| && log[n - 1].key.entity < |p.marks|
    ensures p.since < n <= p.marks[log[n - 1].key.entity] <= p.Last()
    ensures Current(log[..p.marks[log[n - 1].key.entity]], n)
  {
    InUnion(p.fetched, n);
    var e :| 0 <= e < |p.marks| && n in p.fetched[e];
    assert n in Pending(log[..p.marks[e]], e, p.since);
  }

  // A row applied earlier and still current is not overwritten by the page.
  lemma OldRowStays(log: Log, p: Pull, rows: map<Key, Data>, rows': map<Key, Data>, n: nat)
    requires p.Of(log) && Applied(log, rows, p.page, rows')
    requires 1 <= n <= p.since && Current(log, n) && Holds(log, rows, n)
    ensures Holds(log, rows', n)
  {
    NotOnPage(log, p, n);
  }

  lemma NotOnPage(log: Log, p: Pull, n: nat)
    requires p.Of(log) && 1 <= n <= p.since && Current(log, n)
    ensures NotOn(log, p.page, log[n - 1].key)
  {
    forall m: nat | m in p.page && 1 <= m <= |log| ensures log[m - 1].key != log[n - 1].key {
      PageMember(log, p, m);
    }
  }

  lemma BehindCursorIsDelivered(log: Log, p: Pull, n: nat)
    requires p.Of(log) && p.Last() <= p.First() + 1
    requires p.since < n <= p.next && Current(log, n) && log[n - 1].key.entity < |p.marks|
    ensures n in p.page
  {
    var e := log[n - 1].key.entity;
    assert p.First() <= p.marks[e];
    if n <= p.marks[e] {
      SeenIsDelivered(log, p, n);
    } else {
      // n is the one stamp past the first mark; the page reaches it, so it is the page's last row.
      PageMember(log, p, p.next);
      assert n == p.next;
    }
  }

  lemma PullHolds(log: Log, p: Pull, rows: map<Key, Data>, rows': map<Key, Data>, n: nat)
    requires p.Of(log) && Applied(log, rows, p.page, rows') && NoSkip(log, |p.marks|, p.since, rows)
    requires p.Last() <= p.First() + 1
    requires n <= p.next && Current(log, n) && log[n - 1].key.entity < |p.marks|
    ensures Holds(log, rows', n)
  {
    if n <= p.since {
      OldRowStays(log, p, rows, rows', n);
    } else {
      BehindCursorIsDelivered(log, p, n);
    }
  }

  lemma PullNoStrangers(log: Log, p: Pull, rows: map<Key, Data>, rows': map<Key, Data>, k: Key)
    requires p.Of(log) && Applied(log, rows, p.page, rows') && NoSkip(log, |p.marks|, p.since, rows)
    requires k in rows'
    ensures k.entity < |p.marks| && exists j :: 0 <= j < |log| && log[j].key == k
  {
    if n: nat :| n in p.page && 1 <= n <= |log| && log[n - 1].key == k {
      PageMember(log, p, n);
    } else {
      assert k in rows;
    }
  }

  /**
   * A pull whose queries saw at most one stamp land between the first and the last of them leaves
   * nothing behind its new cursor.
   */
  lemma PullKeepsNoSkip(log: Log, p: Pull, rows: map<Key, Data>, rows': map<Key, Data>)
    requires p.Of(log) && Applied(log, rows, p.page, rows') && NoSkip(log, |p.marks|, p.since, rows)
    requires p.Last() <= p.First() + 1
    ensures NoSkip(log, |p.marks|, p.next, rows')
    ensures p.next <= |log|
  {
    forall n: nat | n <= p.next && Current(log, n) && log[n - 1].key.entity < |p.marks|
      ensures Holds(log, rows', n)
    {
      PullHolds(log, p, rows, rows', n);
    }
    forall k | k in rows'
      ensures k.entity < |p.marks| && exists j :: 0 <= j < |log| && log[j].key == k
    {
      PullNoStrangers(log, p, rows, rows', k);
    }
    if p.page != {} { PageMember(log, p, p.next); }
  }

  // A history in which row (0, 0) is stamped over and over and a row of the last entity comes last.
  function Overtaken(entities: nat, length: nat): Log
    requires entities > 0
  {
    seq(length, i requires i >= 0 => Stamp(Key(if i < length - 1 then 0 else entities - 1, 0), false, i))
  }

  /**
   * The bound is exact. However many queries a pull makes, if two or more stamps can land between the
   * first and the last, there is a history, a device that is up to date, and a pull that skips a row.
   */
  lemma TwoStampsCanSkip(marks: seq<nat>) returns (log: Log, p: Pull, rows: map<Key, Data>, rows': map<Key, Data>)
    requires |marks| > 0 && forall i, j :: 0 <= i <= j < |marks| ==> marks[i] <= marks[j]
    requires marks[|marks| - 1] >= marks[0] + 2
    ensures p.marks == marks && p.Of(log) && Applied(log, rows, p.page, rows')
    ensures NoSkip(log[..marks[0]], |marks|, p.since, rows) && NoSkip(log, |marks|, p.since, rows)
    ensures !NoSkip(log, |marks|, p.next, rows')
  {
    var last, m := marks[|marks| - 1], marks[0];
    log := Overtaken(|marks|, last);
    rows := if m == 0 then map[] else map[Key(0, 0) := m - 1];
    rows' := rows[Key(|marks| - 1, 0) := last - 1];
    p := OvertakenPull(marks);
    OvertakenIsPull(marks);
    OvertakenUpToDate(|marks|, last, m, rows);
    OvertakenSkipped(|marks|, last, rows');
  }

  // The device is up to the first mark; only the last entity's query returns anything: the last stamp.
  function OvertakenPull(marks: seq<nat>): Pull
    requires |marks| > 0
  {
    var last := marks[|marks| - 1];
    Pull(marks, marks[0], 1, seq(|marks|, e => if e == |marks| - 1 then {last} else {}), {last}, last)
  }

  lemma OvertakenIsPull(marks: seq<nat>)
    requires |marks| > 0 && forall i, j :: 0 <= i <= j < |marks| ==> marks[i] <= marks[j]
    requires marks[|marks| - 1] >= marks[0] + 2
    ensures OvertakenPull(marks).Of(Overtaken(|marks|, marks[|marks| - 1]))
  {
    var p := OvertakenPull(marks);
    var last := p.Last();
    var log := Overtaken(|marks|, last);
    forall e | 0 <= e < |marks|
      ensures IsFirst(Pending(log[..marks[e]], e, p.since), 2, p.fetched[e])
    {
      OvertakenPending(marks, e);
    }
    forall x ensures x in Union(p.fetched) <==> x == last {
      InUnion(p.fetched, x);
      assert p.fetched[|marks| - 1] == {last};
    }
    assert Union(p.fetched) == {last};
  }

  lemma OvertakenSkipped(entities: nat, last: nat, rows: map<Key, Data>)
    requires entities > 1 && last >= 2 && (Key(0, 0) in rows ==> rows[Key(0, 0)] != last - 2)
    ensures !NoSkip(Overtaken(entities, last), entities, last, rows)
  {
    var log := Overtaken(entities, last);
    assert log[last - 2].key == Key(0, 0) && Current(log, last - 1);
    assert !Holds(log, rows, last - 1);
  }

  lemma OvertakenPending(marks: seq<nat>, e: nat)
    requires e < |marks| && forall i, j :: 0 <= i <= j < |marks| ==> marks[i] <= marks[j]
    requires marks[|marks| - 1] >= marks[0] + 2
    ensures Pending(Overtaken(|marks|, marks[|marks| - 1])[..marks[e]], e, marks[0])
      == if e == |marks| - 1 then {marks[|marks| - 1]} else {}
  {
    var last := marks[|marks| - 1];
    var log := Overtaken(|marks|, last);
    var seen := log[..marks[e]];
    if e == |marks| - 1 {
      assert seen == log && Current(log, last);
    }
  }

  lemma OvertakenUpToDate(entities: nat, last: nat, m: nat, rows: map<Key, Data>)
    requires entities > 1 && last >= m + 2
    requires rows == if m == 0 then map[] else map[Key(0, 0) := m - 1]
    ensures NoSkip(Overtaken(entities, last)[..m], entities, m, rows)
    ensures NoSkip(Overtaken(entities, last), entities, m, rows)
  {
    var log := Overtaken(entities, last);
    assert m > 0 ==> log[..m][m - 1].key == Key(0, 0) && log[..m][m - 1].data == m - 1;
    forall n: nat | n <= m && Current(log[..m], n) ensures n == m {
      assert log[..m][n - 1].key == Key(0, 0);
    }
    NoSkipGrows(log[..m], log, entities, m, rows);
  }

  // Pulls whose queries run after these amounts of history never lose a row, whatever was committed.
  ghost predicate NeverSkips(marks: seq<nat>) {
    forall log, p: Pull, rows, rows' ::
      p.marks == marks && p.Of(log) && Applied(log, rows, p.page, rows') &&
        NoSkip(log[..p.First()], |marks|, p.since, rows)
      ==> NoSkip(log, |marks|, p.next, rows')
  }

  /** No pull skips a change exactly when at most one stamp lands between its first and its last query. */
  lemma NeverSkipsIffOneStamp(marks: seq<nat>)
    requires |marks| > 0 && forall i, j :: 0 <= i <= j < |marks| ==> marks[i] <= marks[j]
    ensures NeverSkips(marks) <==> marks[|marks| - 1] <= marks[0] + 1
  {
    if marks[|marks| - 1] <= marks[0] + 1 {
      forall log, p: Pull, rows, rows'
        | p.marks == marks && p.Of(log) && Applied(log, rows, p.page, rows') &&
          NoSkip(log[..p.First()], |marks|, p.since, rows)
        ensures NoSkip(log, |marks|, p.next, rows')
      {
        NoSkipGrows(log[..p.First()], log, |marks|, p.since, rows);
        PullKeepsNoSkip(log, p, rows, rows');
      }
    } else {
      var log, p, rows, rows' := TwoStampsCanSkip(marks);
    }
  }

  ghost predicate Ascending(r: seq<nat>) { forall i, j :: 0 <= i < j < |r| ==> r[i] < r[j] }

  lemma {:induction false} AscendingSize(r: seq<nat>)
    requires Ascending(r)
    ensures |Elems(r)| == |r|
  {
    if r != [] {
      var front, last := r[..|r| - 1], r[|r| - 1];
      AscendingSize(front);
      assert r == front + [last];
      assert Elems(r) == Elems(front) + {last} && last !in front;
    }
  }

  lemma AscendingAppend(r: seq<nat>, n: nat)
    requires Ascending(r) && forall x :: x in r ==> x < n
    ensures Ascending(r + [n]) && Elems(r + [n]) == Elems(r) + {n}
  {
    forall i | 0 <= i < |r| ensures r[i] < n {
      assert r[i] in r;
    }
  }

  // The members up to n are the first ones, once there are enough of them or no others.
  lemma UpToIsFirst(s: set<nat>, n: nat, limit: nat, r: seq<nat>)
    requires Ascending(r) && |r| <= limit && Elems(r) == set x | x in s && x <= n
    requires |r| == limit || forall x :: x in s ==> x <= n
    ensures IsFirst(s, limit, Elems(r))
  {
    AscendingSize(r);
    Subset(Elems(r), s);
    if forall x :: x in s ==> x <= n { assert Elems(r) == s; }
  }

  /** SELECT ... WHERE change_seq > :since ORDER BY change_seq LIMIT :limit, along the change_seq index. */
  method SelectRows(log: Log, entity: nat, since: nat, limit: nat) returns (r: seq<nat>)
    ensures Ascending(r) && IsFirst(Pending(log, entity, since), limit, Elems(r))
  {
    r := [];
    var n := since;
    while n < |log| && |r| < limit
      invariant since <= n && (n <= |log| || r == [])
      invariant |r| <= limit && Ascending(r)
      invariant Elems(r) == set x | x in Pending(log, entity, since) && x <= n
    {
      n := n + 1;
      if Current(log, n) && log[n - 1].key.entity == entity {
        assert forall x :: x in r ==> x in Elems(r);
        AscendingAppend(r, n);
        r := r + [n];
      }
    }
    UpToIsFirst(Pending(log, entity, since), n, limit, r);
  }

  /** merged.sort(); merged[:limit] */
  method SortAndCut(merged: set<nat>, limit: nat) returns (page: seq<nat>)
    ensures Ascending(page) && IsFirst(merged, limit, Elems(page))
  {
    page := [];
    var rest := merged;
    while rest != {} && |page| < limit
      invariant rest <= merged && Elems(page) == merged - rest && |page| <= limit
      invariant Ascending(page) && forall a, b :: a in page && b in rest ==> a < b
      decreases rest
    {
      var m := Least(rest);
      AscendingAppend(page, m);
      page, rest := page + [m], rest - {m};
    }
    AscendingSize(page);
    Subset(Elems(page), merged);
  }

  // The device's copy is exactly the live rows of the server.
  ghost predicate InSync(log: Log, entities: nat, rows: map<Key, Data>) {
    && (forall n :: Current(log, n) && log[n - 1].key.entity < entities ==> Holds(log, rows, n))
    && (forall k :: k in rows ==> k.entity < entities)
    && (forall k :: k in rows ==> exists n :: Current(log, n) && log[n - 1] == Stamp(k, false, rows[k]))
  }

  lemma {:induction false} CurrentExists(log: Log, j: nat) returns (n: nat)
    requires j < |log|
    ensures Current(log, n) && log[n - 1].key == log[j].key
    decreases |log| - j
  {
    if i :| j < i < |log| && log[i].key == log[j].key {
      n := CurrentExists(log, i);
    } else {
      n := j + 1;
    }
  }

  lemma NothingPendingInSync(log: Log, entities: nat, rows: map<Key, Data>)
    requires NoSkip(log, entities, |log|, rows)
    ensures InSync(log, entities, rows)
  {
    forall k | k in rows
      ensures exists n :: Current(log, n) && log[n - 1] == Stamp(k, false, rows[k])
    {
      var j :| 0 <= j < |log| && log[j].key == k;
      var n := CurrentExists(log, j);
      assert Holds(log, rows, n);
    }
  }

  lemma LastPageReachesEnd(log: Log, p: Pull, rows: map<Key, Data>, rows': map<Key, Data>)
    requires p.Of(log) && Applied(log, rows, p.page, rows') && NoSkip(log, |p.marks|, p.since, rows)
    requires p.First() == |log| && !p.HasMore()
    ensures NoSkip(log, |p.marks|, |log|, rows')
  {
    PullKeepsNoSkip(log, p, rows, rows');
    forall n: nat | Current(log, n) && log[n - 1].key.entity < |p.marks|
      ensures Holds(log, rows', n)
    {
      if n <= p.since {
        OldRowStays(log, p, rows, rows', n);
      } else {
        assert p.First() <= p.marks[log[n - 1].key.entity];
        SeenIsDelivered(log, p, n);
      }
    }
  }

  ghost predicate OneRowPerKey(log: Log, page: set<nat>) {
    && (forall n :: n in page ==> 1 <= n <= |log|)
    && (forall m, n :: m in page && n in page && log[m - 1].key == log[n - 1].key ==> m == n)
  }

  function Patched(rows: map<Key, Data>, change: Stamp): map<Key, Data> {
    if change.deleted then rows - {change.key} else rows[change.key := change.data]
  }

  lemma AppliedOneMore(log: Log, before: map<Key, Data>, done: set<nat>, rows: map<Key, Data>, n: nat)
    requires Applied(log, before, done, rows) && 1 <= n <= |log|
    requires forall m :: m in done ==> 1 <= m <= |log| && log[m - 1].key != log[n - 1].key
    ensures Applied(log, before, done + {n}, Patched(rows, log[n - 1]))
  {
    var after := Patched(rows, log[n - 1]);
    forall k | NotOn(log, done + {n}, k)
      ensures (k in before <==> k in after) && (k in before ==> after[k] == before[k])
    {
      assert n in done + {n};
      assert forall m: nat :: m in done ==> m in done + {n};
      assert NotOn(log, done, k);
    }
  }

  // One query per entity, each seeing what had committed by then.
  method Fetch(log: Log, marks: seq<nat>, since: nat, limit: nat)
    returns (merged: set<nat>, ghost fetched: seq<set<nat>>)
    requires forall e :: 0 <= e < |marks| ==> marks[e] <= |log|
    ensures |fetched| == |marks| && merged == Union(fetched)
    ensures forall e :: 0 <= e < |marks| ==> IsFirst(Pending(log[..marks[e]], e, since), limit + 1, fetched[e])
  {
    merged, fetched := {}, [];
    var e := 0;
    while e < |marks|
      invariant 0 <= e <= |marks| && |fetched| == e && merged == Union(fetched)
      invariant forall d :: 0 <= d < e ==> IsFirst(Pending(log[..marks[d]], d, since), limit + 1, fetched[d])
    {
      var r := SelectRows(log[..marks[e]], e, since, limit + 1);
      UnionAppend(fetched, Elems(r));
      fetched := fetched + [Elems(r)];
      merged := merged + set x | x in r;
      e := e + 1;
    }
  }

  lemma PageNext(page: seq<nat>)
    requires Ascending(page) && page != []
    ensures page[|page| - 1] in Elems(page) && forall n :: n in Elems(page) ==> n <= page[|page| - 1]
  {
  }

  class Device {
    var cursor: nat
    var rows: map<Key, Data>

    constructor ()
      ensures cursor == 0 && rows == map[]
    {
      cursor, rows := 0, map[];
    }

    // Applies the changes in order and keeps the page's cursor.
    method Apply(log: Log, page: seq<nat>)
      requires Ascending(page) && OneRowPerKey(log, Elems(page))
      modifies this
      ensures Applied(log, old(rows), Elems(page), rows)
      ensures cursor == if page == [] then old(cursor) else page[|page| - 1]
    {
      var i := 0;
      while i < |page|
        invariant 0 <= i <= |page|
        invariant Applied(log, old(rows), Elems(page[..i]), rows)
        invariant cursor == old(cursor)
      {
        var n := page[i];
        assert n in Elems(page);
        assert Elems(page[..i + 1]) == Elems(page[..i]) + {n};
        assert forall m :: m in Elems(page[..i]) ==> m in Elems(page) && m != n;
        AppliedOneMore(log, old(rows), Elems(page[..i]), rows, n);
        rows := Patched(rows, log[n - 1]);
        i := i + 1;
      }
      assert page[..i] == page;
      if page != [] { cursor := page[|page| - 1]; }
    }

    /** One pull request: entity e's query runs once marks[e] of the history has committed. */
    method PullPage(log: Log, marks: seq<nat>, limit: nat) returns (more: bool, ghost p: Pull)
      requires |marks| > 0 && limit > 0 && cursor <= marks[0]
      requires forall i, j :: 0 <= i <= j < |marks| ==> marks[i] <= marks[j]
      requires forall e :: 0 <= e < |marks| ==> marks[e] <= |log|
      modifies this
      ensures p.Of(log) && p.marks == marks && p.since == old(cursor) && p.next == cursor
      ensures Applied(log, old(rows), p.page, rows) && more == p.HasMore()
    {
      var merged, fetched := Fetch(log, marks, cursor, limit);
      var page := SortAndCut(merged, limit);
      more := |merged| > limit;
      p := Pull(marks, cursor, limit, fetched, Elems(page), if page == [] then cursor else page[|page| - 1]);
      if page != [] { PageNext(page); }
      PageHasOneRowPerKey(log, p);
      Apply(log, page);
    }

    /** Pulling page after page while nothing new commits ends with the server's live rows, tombstones gone. */
    method PullAll(log: Log, entities: nat, limit: nat)
      requires entities > 0 && limit > 0 && cursor <= |log| && NoSkip(log, entities, cursor, rows)
      modifies this
      ensures InSync(log, entities, rows)
    {
      var marks := seq(entities, _ => |log|);
      var more := true;
      while more
        invariant cursor <= |log| && NoSkip(log, entities, cursor, rows)
        invariant !more ==> NoSkip(log, entities, |log|, rows)
        decreases more, |log| - cursor
      {
        ghost var p;
        ghost var before := rows;
        more, p := PullPage(log, marks, limit);
        PullKeepsNoSkip(log, p, before, rows);
        if more {
          PageAdvances(log, p);
        } else {
          LastPageReachesEnd(log, p, before, rows);
        }
      }
      NothingPendingInSync(log, entities, rows);
    }
  }

  lemma {:induction false} UnionAppend(sets: seq<set<nat>>, s: set<nat>)
    ensures Union(sets + [s]) == Union(sets) + s
  {
    forall x ensures x in Union(sets + [s]) <==> x in Union(sets) + s {
      InUnion(sets + [s], x);
      InUnion(sets, x);
      forall e | 0 <= e < |sets| ensures (sets + [s])[e] == sets[e] {}
      assert (sets + [s])[|sets|] == s;
    }
  }

  lemma PageHasOneRowPerKey(log: Log, p: Pull)
    requires p.Of(log)
    ensures OneRowPerKey(log, p.page)
  {
    forall n | n in p.page ensures 1 <= n <= |log| { PageMember(log, p, n); }
    forall m, n | m in p.page && n in p.page && log[m - 1].key == log[n - 1].key ensures m == n {
      PageMember(log, p, m);
      PageMember(log, p, n);
    }
  }

  lemma PageAdvances(log: Log, p: Pull)
    requires p.Of(log) && p.HasMore()
    ensures p.since < p.next
  {
    assert |p.page| > 0;
    PageMember(log, p, p.next);
  }
}
