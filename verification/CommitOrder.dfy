/**
 * Transactions writing synced rows of one business, stamped at COMMIT under the counter row's lock,
 * interleaved in any order with each other, with aborts and with a device's pulls.
 */
module CommitOrder {
  import opened ChangeFeed
  import opened Collections
  import opened Options

  datatype Image = Image(deleted: bool, data: Data)
  datatype Row = Row(image: Image, seq_: nat)
  type TxnId = nat

  // `queue` holds the deferred trigger events still to fire, `issued` the rows stamped so far in order,
  // `drawn` the numbers sync_next_seq() returned for them, `seqs` each row's uncommitted change_seq. Written
  // rows are locked.
  datatype Txn = Txn(writes: map<Key, Image>, queue: seq<Key>, committing: bool, issued: seq<Key>, drawn: seq<nat>,
                     seqs: map<Key, nat>)

  // The numbers a committed transaction drew.
  datatype Block = Block(txn: TxnId, drawn: seq<nat>)

  // `log` and `blocks` record the committed history, `writer` the block each row was last written by; the
  // database itself holds rows and counter.
  datatype Server = Server(rows: map<Key, Row>, counter: nat, holder: Option<TxnId>, txns: map<TxnId, Txn>,
                           ghost log: Log, ghost blocks: seq<Block>, ghost writer: map<Key, nat>)

  datatype Action =
    | Begin(t: TxnId)
    | Write(t: TxnId, key: Key, image: Image, touches: seq<Key>)
    | StartCommit(t: TxnId)
    | Fire(t: TxnId)
    | Commit(t: TxnId)
    | Abort(t: TxnId)

  ghost predicate LockFree(s: Server, t: TxnId, k: Key) {
    forall u :: u in s.txns && u != t ==> k !in s.txns[u].writes
  }

  ghost predicate Enabled(s: Server, a: Action) {
    match a
    case Begin(t) => t !in s.txns
    case Write(t, k, _, _) => t in s.txns && !s.txns[t].committing && LockFree(s, t, k)
    case StartCommit(t) => t in s.txns && !s.txns[t].committing
    case Fire(t) =>
      && t in s.txns && s.txns[t].committing && s.txns[t].queue != []
      && var k := s.txns[t].queue[0];
         (k in s.txns[t].writes || k in s.rows ==> LockFree(s, t, k) && (s.holder.None? || s.holder == Some(t)))
    case Commit(t) => t in s.txns && s.txns[t].committing && s.txns[t].queue == []
    case Abort(t) => t in s.txns
  }

  function Unlocked(holder: Option<TxnId>, t: TxnId): Option<TxnId> {
    if holder == Some(t) then None else holder
  }

  // The version of the counter row a transaction sees: its own update, or else the committed one.
  function CounterSeen(s: Server, x: Txn): nat {
    if x.drawn == [] then s.counter else x.drawn[|x.drawn| - 1]
  }

  // UPDATE ... SET change_seq = sync_next_seq(business) WHERE id = ...: no such row, no number drawn.
  ghost function Fired(s: Server, t: TxnId): Server
    requires Enabled(s, Fire(t))
  {
    var x := s.txns[t];
    var k := x.queue[0];
    if k !in x.writes && k !in s.rows then
      s.(txns := s.txns[t := x.(queue := x.queue[1..])])
    else
      s.(holder := Some(t), txns := s.txns[t := Numbered(x, ImageOf(s, x, k), CounterSeen(s, x) + 1)])
  }

  ghost function ImageOf(s: Server, x: Txn, k: Key): Image {
    if k in x.writes then x.writes[k] else if k in s.rows then s.rows[k].image else Image(false, 0)
  }

  ghost function Numbered(x: Txn, image: Image, number: nat): Txn
    requires x.queue != []
  {
    var k := x.queue[0];
    x.(queue := x.queue[1..], writes := x.writes[k := image], issued := x.issued + [k], drawn := x.drawn + [number],
       seqs := x.seqs[k := number])
  }

  ghost function Stamps(writes: map<Key, Image>, issued: seq<Key>): Log
    requires forall k :: k in issued ==> k in writes
  {
    if issued == [] then []
    else
      var k := issued[|issued| - 1];
      Stamps(writes, issued[..|issued| - 1]) + [Stamp(k, writes[k].deleted, writes[k].data)]
  }

  ghost function Committed(s: Server, t: TxnId): Server
    requires Enabled(s, Commit(t)) && Inv(s)
  {
    var x := s.txns[t];
    NumbersKeys(s.counter, x.issued);
    Server(
      map k | k in s.rows.Keys + x.writes.Keys :: if k in x.writes then Row(x.writes[k], x.seqs[k]) else s.rows[k],
      CounterSeen(s, x), Unlocked(s.holder, t), s.txns - {t},
      s.log + Stamps(x.writes, x.issued),
      s.blocks + [Block(t, x.drawn)],
      map k | k in s.writer.Keys + x.writes.Keys :: if k in x.writes then |s.blocks| else s.writer[k])
  }

  ghost function Next(s: Server, a: Action): Server
    requires Enabled(s, a) && Inv(s)
  {
    match a
    case Begin(t) => s.(txns := s.txns[t := Txn(map[], [], false, [], [], map[])])
    case Write(t, k, image, touches) =>
      var x := s.txns[t];
      s.(txns := s.txns[t := x.(writes := x.writes[k := image], queue := x.queue + [k] + touches)])
    case StartCommit(t) => s.(txns := s.txns[t := s.txns[t].(committing := true)])
    case Fire(t) => Fired(s, t)
    case Commit(t) => Committed(s, t)
    case Abort(t) => s.(txns := s.txns - {t}, holder := Unlocked(s.holder, t))
  }

  // The rows a history leaves: each with the image and number of its latest stamp.
  ghost function RowsOf(log: Log): map<Key, Row> {
    if log == [] then map[]
    else
      var last := log[|log| - 1];
      RowsOf(log[..|log| - 1])[last.key := Row(Image(last.deleted, last.data), |log|)]
  }

  // A transaction's own numbers follow the committed counter without gaps.
  ghost function Numbers(counter: nat, issued: seq<Key>): map<Key, nat> {
    if issued == [] then map[]
    else Numbers(counter, issued[..|issued| - 1])[issued[|issued| - 1] := counter + |issued|]
  }

  ghost predicate TxnOk(x: Txn, counter: nat) {
    && |x.drawn| == |x.issued| && x.drawn == Range(counter + 1, counter + 1 + |x.issued|)
    && x.seqs == Numbers(counter, x.issued)
    && (forall k :: k in x.issued ==> k in x.writes)
    && (forall k :: k in x.writes ==> k in x.issued || k in x.queue)
  }

  // All numbers drawn by committed transactions, in commit order.
  ghost function AllDrawn(blocks: seq<Block>): seq<nat> {
    if blocks == [] then [] else AllDrawn(blocks[..|blocks| - 1]) + blocks[|blocks| - 1].drawn
  }

  ghost predicate InWritersBlock(s: Server, k: Key)
    requires k in s.rows
  {
    k in s.writer && s.writer[k] < |s.blocks| && s.rows[k].seq_ in s.blocks[s.writer[k]].drawn
  }

  ghost predicate WritersKnown(s: Server) {
    s.writer.Keys == s.rows.Keys && forall k :: k in s.rows ==> InWritersBlock(s, k)
  }

  // Only the holder of the counter's lock has drawn numbers.
  ghost predicate TxnsOk(s: Server) {
    && (forall t :: t in s.txns ==> TxnOk(s.txns[t], s.counter))
    && (forall t :: t in s.txns && s.txns[t].issued != [] ==> s.holder == Some(t))
  }

  ghost predicate Inv(s: Server) {
    && s.counter == |s.log| && s.rows == RowsOf(s.log)
    && AllDrawn(s.blocks) == Range(1, s.counter + 1)
    && WritersKnown(s) && TxnsOk(s)
  }

  lemma WriteKeepsTxn(x: Txn, counter: nat, k: Key, image: Image, touches: seq<Key>)
    requires TxnOk(x, counter)
    ensures TxnOk(x.(writes := x.writes[k := image], queue := x.queue + [k] + touches), counter)
  {
    assert forall q :: q in x.queue + [k] + touches <==> q in x.queue || q == k || q in touches;
  }

  lemma CounterSeenIs(s: Server, x: Txn)
    requires TxnOk(x, s.counter)
    ensures CounterSeen(s, x) == s.counter + |x.issued|
  {
  }

  lemma FireKeepsTxn(x: Txn, counter: nat, image: Image)
    requires TxnOk(x, counter) && x.queue != []
    ensures TxnOk(Numbered(x, image, counter + |x.issued| + 1), counter)
    ensures x.queue[0] !in x.writes ==> TxnOk(x.(queue := x.queue[1..]), counter)
  {
    var k := x.queue[0];
    NumbersOneMore(counter, x.issued, k);
    forall q | q in x.queue ensures q == k || q in x.queue[1..] {}
    forall q ensures q in x.issued + [k] <==> q in x.issued || q == k {}
  }

  lemma NumbersOneMore(counter: nat, issued: seq<Key>, k: Key)
    ensures Numbers(counter, issued + [k]) == Numbers(counter, issued)[k := counter + |issued| + 1]
  {
    assert (issued + [k])[..|issued|] == issued;
  }

  // Replacing one transaction's state, perhaps taking the free counter lock for it.
  lemma ReplaceKeepsInv(s: Server, t: TxnId, y: Txn, holder: Option<TxnId>, u: Server)
    requires Inv(s) && TxnOk(y, s.counter) && (y.issued != [] ==> holder == Some(t))
    requires holder == s.holder || (s.holder.None? && holder == Some(t))
    requires u == s.(holder := holder, txns := s.txns[t := y])
    ensures Inv(u)
  {
  }

  lemma FireKeepsInv(s: Server, t: TxnId)
    requires Inv(s) && Enabled(s, Fire(t))
    ensures Inv(Fired(s, t))
  {
    var x := s.txns[t];
    var k := x.queue[0];
    FireKeepsTxn(x, s.counter, ImageOf(s, x, k));
    CounterSeenIs(s, x);
    if k !in x.writes && k !in s.rows {
      ReplaceKeepsInv(s, t, x.(queue := x.queue[1..]), s.holder, Fired(s, t));
    } else {
      ReplaceKeepsInv(s, t, Numbered(x, ImageOf(s, x, k), CounterSeen(s, x) + 1), Some(t), Fired(s, t));
    }
  }

  lemma {:induction false} NumbersKeys(counter: nat, issued: seq<Key>)
    ensures forall k :: k in Numbers(counter, issued) <==> k in issued
  {
    if issued != [] {
      NumbersKeys(counter, issued[..|issued| - 1]);
      assert issued == issued[..|issued| - 1] + [issued[|issued| - 1]];
    }
  }

  ghost function Overlay(rows: map<Key, Row>, writes: map<Key, Image>, numbers: map<Key, nat>): map<Key, Row> {
    map k | k in rows.Keys + numbers.Keys ::
      if k in numbers && k in writes then Row(writes[k], numbers[k])
      else if k in rows then rows[k]
      else Row(Image(false, 0), 0)
  }

  lemma OverlayOneMore(rows: map<Key, Row>, writes: map<Key, Image>, numbers: map<Key, nat>, k: Key, n: nat)
    requires k in writes
    ensures Overlay(rows, writes, numbers[k := n]) == Overlay(rows, writes, numbers)[k := Row(writes[k], n)]
  {
  }

  lemma RowsOfOneMore(log: Log, st: Stamp)
    ensures RowsOf(log + [st]) == RowsOf(log)[st.key := Row(Image(st.deleted, st.data), |log| + 1)]
  {
    assert (log + [st])[..|log|] == log;
  }

  lemma StampPublished(log: Log, before: Log, writes: map<Key, Image>, numbers: map<Key, nat>, k: Key)
    requires RowsOf(before) == Overlay(RowsOf(log), writes, numbers) && k in writes
    ensures RowsOf(before + [Stamp(k, writes[k].deleted, writes[k].data)]) ==
      Overlay(RowsOf(log), writes, numbers[k := |before| + 1])
  {
    RowsOfOneMore(before, Stamp(k, writes[k].deleted, writes[k].data));
    OverlayOneMore(RowsOf(log), writes, numbers, k, |before| + 1);
  }

  // Publishing a block of stamps gives every stamped row its own latest number.
  lemma {:induction false} RowsOfBlock(log: Log, writes: map<Key, Image>, issued: seq<Key>)
    requires forall k :: k in issued ==> k in writes
    ensures |Stamps(writes, issued)| == |issued|
    ensures RowsOf(log + Stamps(writes, issued)) == Overlay(RowsOf(log), writes, Numbers(|log|, issued))
  {
    if issued == [] {
      assert log + [] == log;
    } else {
      var front, k := issued[..|issued| - 1], issued[|issued| - 1];
      assert k in issued;
      RowsOfBlock(log, writes, front);
      StampPublished(log, log + Stamps(writes, front), writes, Numbers(|log|, front), k);
      assert log + Stamps(writes, issued) ==
        log + Stamps(writes, front) + [Stamp(k, writes[k].deleted, writes[k].data)];
    }
  }

  lemma CommittedRows(s: Server, t: TxnId)
    requires Inv(s) && Enabled(s, Commit(t))
    ensures Committed(s, t).rows == RowsOf(Committed(s, t).log)
    ensures Committed(s, t).counter == |Committed(s, t).log|
  {
    var x := s.txns[t];
    RowsOfBlock(s.log, x.writes, x.issued);
    NumbersKeys(s.counter, x.issued);
    CounterSeenIs(s, x);
    assert x.seqs.Keys == x.writes.Keys;
  }

  lemma DrawnOneMore(blocks: seq<Block>, b: Block, counter: nat, n: nat)
    requires AllDrawn(blocks) == Range(1, counter + 1) && b.drawn == Range(counter + 1, counter + 1 + n)
    ensures AllDrawn(blocks + [b]) == AllDrawn(blocks) + b.drawn == Range(1, counter + n + 1)
  {
    RangeJoins(1, counter + 1, counter + 1 + n);
    assert (blocks + [b])[..|blocks|] == blocks;
  }

  // The numbers a commit publishes follow all published before, and the new counter is the last of them.
  lemma CommittedDrawn(s: Server, t: TxnId)
    requires Inv(s) && Enabled(s, Commit(t))
    ensures AllDrawn(Committed(s, t).blocks) == AllDrawn(s.blocks) + s.txns[t].drawn
    ensures AllDrawn(Committed(s, t).blocks) == Range(1, Committed(s, t).counter + 1)
  {
    var x := s.txns[t];
    CounterSeenIs(s, x);
    DrawnOneMore(s.blocks, Block(t, x.drawn), s.counter, |x.issued|);
  }

  lemma CommittedWriters(s: Server, t: TxnId, k: Key)
    requires Inv(s) && Enabled(s, Commit(t)) && k in Committed(s, t).rows
    ensures InWritersBlock(Committed(s, t), k)
  {
    var x, e := s.txns[t], Committed(s, t);
    if k in x.writes {
      NumbersKeys(s.counter, x.issued);
      NumbersAbove(s.counter, x.issued);
      RangeMembers(s.counter + 1, s.counter + 1 + |x.issued|);
      assert e.blocks[|s.blocks|].drawn == x.drawn;
    } else {
      assert InWritersBlock(s, k);
    }
  }

  lemma CommittedTxns(s: Server, t: TxnId)
    requires Inv(s) && Enabled(s, Commit(t))
    ensures TxnsOk(Committed(s, t))
  {
    var x, e := s.txns[t], Committed(s, t);
    CounterSeenIs(s, x);
    forall u | u in e.txns ensures TxnOk(e.txns[u], e.counter) {
      // Any other transaction's numbers are still to come.
      if x.issued != [] { assert s.txns[u].issued == []; }
    }
  }

  lemma CommitKeepsInv(s: Server, t: TxnId)
    requires Inv(s) && Enabled(s, Commit(t))
    ensures Inv(Committed(s, t))
  {
    CommittedRows(s, t);
    CommittedDrawn(s, t);
    CommittedTxns(s, t);
    forall k | k in Committed(s, t).rows ensures InWritersBlock(Committed(s, t), k) {
      CommittedWriters(s, t, k);
    }
  }

  lemma AbortKeepsInv(s: Server, t: TxnId)
    requires Inv(s) && Enabled(s, Abort(t))
    ensures Inv(Next(s, Abort(t)))
  {
  }

  /** Every step keeps rows, counter and history together, and history only grows. */
  lemma NextKeepsInv(s: Server, a: Action)
    requires Inv(s) && Enabled(s, a)
    ensures Inv(Next(s, a))
    ensures s.log <= Next(s, a).log
  {
    match a
    case Begin(t) => ReplaceKeepsInv(s, t, Txn(map[], [], false, [], [], map[]), s.holder, Next(s, a));
    case Write(t, k, image, touches) =>
      var x := s.txns[t];
      WriteKeepsTxn(x, s.counter, k, image, touches);
      ReplaceKeepsInv(s, t, x.(writes := x.writes[k := image], queue := x.queue + [k] + touches), s.holder, Next(s, a));
    case StartCommit(t) => ReplaceKeepsInv(s, t, s.txns[t].(committing := true), s.holder, Next(s, a));
    case Fire(t) => FireKeepsInv(s, t);
    case Commit(t) => CommitKeepsInv(s, t);
    case Abort(t) => AbortKeepsInv(s, t);
  }

  /** The table is the history's latest stamps: what `change_seq > :since` selects is what the feed calls pending. */
  lemma {:induction false} RowsAreCurrent(log: Log)
    ensures forall k :: k in RowsOf(log) ==>
      Current(log, RowsOf(log)[k].seq_) &&
      log[RowsOf(log)[k].seq_ - 1] == Stamp(k, RowsOf(log)[k].image.deleted, RowsOf(log)[k].image.data)
    ensures forall n :: Current(log, n) ==> log[n - 1].key in RowsOf(log) && RowsOf(log)[log[n - 1].key].seq_ == n
  {
    if log != [] {
      var front := log[..|log| - 1];
      RowsAreCurrent(front);
      forall n: nat | Current(log, n) && n < |log| ensures Current(front, n) {}
      forall n: nat | Current(front, n) && front[n - 1].key != log[|log| - 1].key ensures Current(log, n) {}
    }
  }

  lemma PendingIsTheQuery(log: Log, entity: nat, since: nat)
    ensures Pending(log, entity, since) ==
      set k | k in RowsOf(log) && k.entity == entity && RowsOf(log)[k].seq_ > since :: RowsOf(log)[k].seq_
  {
    RowsAreCurrent(log);
    forall n | n in Pending(log, entity, since)
      ensures exists k :: k in RowsOf(log) && k.entity == entity && RowsOf(log)[k].seq_ == n
    {
      assert log[n - 1].key in RowsOf(log);
    }
  }

  /** A commit gives every row it wrote or touched a number above all numbers committed before. */
  lemma CommitStampsEveryWrite(s: Server, t: TxnId, k: Key)
    requires Inv(s) && Enabled(s, Commit(t)) && k in s.txns[t].writes
    ensures k in Committed(s, t).rows && Committed(s, t).rows[k].seq_ > s.counter
    ensures Committed(s, t).rows[k].image == s.txns[t].writes[k]
  {
    NumbersAbove(s.counter, s.txns[t].issued);
    NumbersKeys(s.counter, s.txns[t].issued);
  }

  lemma {:induction false} NumbersAbove(counter: nat, issued: seq<Key>)
    ensures forall k :: k in Numbers(counter, issued) ==> counter < Numbers(counter, issued)[k] <= counter + |issued|
  {
    if issued != [] { NumbersAbove(counter, issued[..|issued| - 1]); }
  }

  // A run of the server alone.
  ghost predicate Steps(s: Server, actions: seq<Action>, v: Server)
    decreases |actions|
  {
    if actions == [] then v == s
    else Inv(s) && Enabled(s, actions[0]) && Steps(Next(s, actions[0]), actions[1..], v)
  }

  // Rows written by open transactions are locked.
  ghost predicate Apart(s: Server) {
    forall t, u, k :: t in s.txns && u in s.txns && t != u && k in s.txns[t].writes ==> k !in s.txns[u].writes
  }

  // t goes on without ending.
  predicate GoesOn(actions: seq<Action>, t: TxnId) {
    Begin(t) !in actions && Commit(t) !in actions && Abort(t) !in actions
  }

  // t writes k no more.
  ghost predicate NoWrite(actions: seq<Action>, t: TxnId, k: Key) {
    forall image, touches :: Write(t, k, image, touches) !in actions
  }

  // The row exists for t, and its stamp is still to come or drawn.
  ghost predicate WillBeStamped(s: Server, t: TxnId, q: Key) {
    t in s.txns && (q in s.rows || q in s.txns[t].writes) && (q in s.txns[t].queue || q in s.txns[t].issued)
  }

  ghost predicate HasWritten(s: Server, t: TxnId, k: Key, image: Image) {
    t in s.txns && k in s.txns[t].writes && s.txns[t].writes[k] == image
  }

  // As far as t goes, the row keeps its committed image.
  ghost predicate LeavesImage(s: Server, t: TxnId, q: Key) {
    t in s.txns && (q in s.txns[t].writes ==> q in s.rows && s.txns[t].writes[q] == s.rows[q].image)
  }

  lemma RowsStay(s: Server, a: Action)
    requires Inv(s) && Enabled(s, a)
    ensures s.rows.Keys <= Next(s, a).rows.Keys
  {
  }

  lemma StepKeepsStamp(s: Server, a: Action, t: TxnId, q: Key)
    requires Inv(s) && Enabled(s, a) && a != Begin(t) && a != Commit(t) && a != Abort(t)
    requires WillBeStamped(s, t, q)
    ensures WillBeStamped(Next(s, a), t, q)
  {
    RowsStay(s, a);
    if a == Fire(t) {
      var x := s.txns[t];
      assert x.queue == [x.queue[0]] + x.queue[1..];
    }
  }

  lemma StepKeepsImage(s: Server, a: Action, t: TxnId, k: Key, image: Image)
    requires Inv(s) && Enabled(s, a) && a != Begin(t) && a != Commit(t) && a != Abort(t)
    requires HasWritten(s, t, k, image) && !(a.Write? && a.t == t && a.key == k)
    ensures HasWritten(Next(s, a), t, k, image)
  {
  }

  lemma StepLeavesImage(s: Server, a: Action, t: TxnId, q: Key)
    requires Inv(s) && Enabled(s, a) && a != Begin(t) && a != Commit(t) && a != Abort(t)
    requires Apart(s) && LeavesImage(s, t, q) && !(a.Write? && a.t == t && a.key == q)
    ensures LeavesImage(Next(s, a), t, q)
  {
  }

  // One transaction's writes grow by a row nobody else holds, or not at all.
  lemma ReplaceKeepsApart(s: Server, t: TxnId, y: Txn, k: Key, u: Server)
    requires Apart(s) && u.txns == s.txns[t := y] && LockFree(s, t, k)
    requires y.writes.Keys <= (if t in s.txns then s.txns[t].writes.Keys else {}) + {k}
    ensures Apart(u)
  {
  }

  lemma StepKeepsApart(s: Server, a: Action)
    requires Inv(s) && Enabled(s, a) && Apart(s)
    ensures Apart(Next(s, a))
  {
    var v := Next(s, a);
    match a
    case Begin(t) => forall u, w, k | u in v.txns && w in v.txns && u != w && k in v.txns[u].writes
                       ensures k !in v.txns[w].writes {}
    case Write(t, k, _, _) => ReplaceKeepsApart(s, t, v.txns[t], k, v);
    case StartCommit(t) =>
    case Fire(t) =>
      var k := s.txns[t].queue[0];
      if k in s.txns[t].writes || k in s.rows { ReplaceKeepsApart(s, t, v.txns[t], k, v); }
    case Commit(t) =>
    case Abort(t) =>
  }

  lemma {:induction false} StepsKeep(s: Server, actions: seq<Action>, v: Server)
    requires Inv(s) && Apart(s) && Steps(s, actions, v)
    ensures Inv(v) && Apart(v) && s.rows.Keys <= v.rows.Keys
    decreases |actions|
  {
    if actions != [] {
      NextKeepsInv(s, actions[0]);
      StepKeepsApart(s, actions[0]);
      RowsStay(s, actions[0]);
      StepsKeep(Next(s, actions[0]), actions[1..], v);
    }
  }

  lemma {:induction false} StepsKeepStamp(s: Server, actions: seq<Action>, v: Server, t: TxnId, q: Key)
    requires Inv(s) && Steps(s, actions, v) && GoesOn(actions, t) && WillBeStamped(s, t, q)
    ensures WillBeStamped(v, t, q)
    decreases |actions|
  {
    if actions != [] {
      var a := actions[0];
      assert a in actions && forall b :: b in actions[1..] ==> b in actions;
      NextKeepsInv(s, a);
      StepKeepsStamp(s, a, t, q);
      StepsKeepStamp(Next(s, a), actions[1..], v, t, q);
    }
  }

  lemma {:induction false} StepsKeepImage(s: Server, actions: seq<Action>, v: Server, t: TxnId, k: Key, image: Image)
    requires Inv(s) && Steps(s, actions, v) && GoesOn(actions, t) && NoWrite(actions, t, k)
    requires HasWritten(s, t, k, image)
    ensures HasWritten(v, t, k, image)
    decreases |actions|
  {
    if actions != [] {
      var a := actions[0];
      assert a in actions && forall b :: b in actions[1..] ==> b in actions;
      NextKeepsInv(s, a);
      StepKeepsImage(s, a, t, k, image);
      StepsKeepImage(Next(s, a), actions[1..], v, t, k, image);
    }
  }

  lemma {:induction false} StepsLeaveImage(s: Server, actions: seq<Action>, v: Server, t: TxnId, q: Key)
    requires Inv(s) && Apart(s) && Steps(s, actions, v)
    requires GoesOn(actions, t) && NoWrite(actions, t, q) && LeavesImage(s, t, q)
    ensures LeavesImage(v, t, q)
    decreases |actions|
  {
    if actions != [] {
      var a := actions[0];
      assert a in actions && forall b :: b in actions[1..] ==> b in actions;
      NextKeepsInv(s, a);
      StepKeepsApart(s, a);
      StepLeavesImage(s, a, t, q);
      StepsLeaveImage(Next(s, a), actions[1..], v, t, q);
    }
  }

  /**
   * In every run, once a transaction has executed a write and commits, the row it wrote and every row its trigger
   * touches that existed then carry numbers above all numbers committed before, and the row written carries its last
   * image.
   */
  lemma EveryTouchIsStamped(before: seq<Action>, s: Server, t: TxnId, k: Key, image: Image, touches: seq<Key>,
                            after: seq<Action>, v: Server, q: Key)
    requires Steps(EmptyServer(), before, s) && Inv(s) && Enabled(s, Write(t, k, image, touches))
    requires Steps(Next(s, Write(t, k, image, touches)), after, v) && GoesOn(after, t)
    requires Inv(v) && Enabled(v, Commit(t)) && (q == k || (q in touches && q in s.rows))
    ensures var e := Next(v, Commit(t));
      && q in e.rows && e.rows[q].seq_ > v.counter
      && (q == k && NoWrite(after, t, k) ==> e.rows[q].image == image)
  {
    var w := Next(s, Write(t, k, image, touches));
    NextKeepsInv(s, Write(t, k, image, touches));
    var x := s.txns[t];
    assert w.txns[t].queue == x.queue + [k] + touches;
    assert q in w.txns[t].queue;
    StepsKeepStamp(w, after, v, t, q);
    CommitStampsEveryWrite(v, t, q);
    if q == k && NoWrite(after, t, k) { StepsKeepImage(w, after, v, t, k, image); }
  }

  /** A row a transaction never wrote, only touched, keeps its image through the commit. */
  lemma TouchKeepsImage(before: seq<Action>, s: Server, t: TxnId, actions: seq<Action>, v: Server, q: Key)
    requires Steps(EmptyServer(), before, s) && Inv(s) && Enabled(s, Begin(t))
    requires Steps(Next(s, Begin(t)), actions, v) && GoesOn(actions, t) && NoWrite(actions, t, q)
    requires Inv(v) && Enabled(v, Commit(t)) && q in v.rows
    ensures var e := Next(v, Commit(t));
      q in e.rows && e.rows[q].image == v.rows[q].image
  {
    StepsKeep(EmptyServer(), before, s);
    NextKeepsInv(s, Begin(t));
    StepKeepsApart(s, Begin(t));
    StepsLeaveImage(Next(s, Begin(t)), actions, v, t, q);
  }

  // Anyone may begin; an open transaction may write a row nobody else holds, start to commit, and abort any time.
  lemma MayAct(s: Server, t: TxnId, k: Key, image: Image, touches: seq<Key>)
    ensures t !in s.txns ==> Enabled(s, Begin(t))
    ensures t in s.txns ==> Enabled(s, Abort(t))
    ensures t in s.txns && !s.txns[t].committing ==> Enabled(s, StartCommit(t))
    ensures t in s.txns && !s.txns[t].committing && (forall u :: u in s.txns && u != t ==> k !in s.txns[u].writes) ==>
      Enabled(s, Write(t, k, image, touches))
  {
  }

  // Nothing keeps a committing transaction from firing its triggers.
  ghost predicate Free(s: Server, t: TxnId) {
    && t in s.txns && s.txns[t].committing && (s.holder.None? || s.holder == Some(t))
    && forall k :: k in s.txns[t].queue ==> LockFree(s, t, k)
  }

  lemma FireKeepsFree(s: Server, t: TxnId)
    requires Free(s, t) && s.txns[t].queue != []
    ensures Enabled(s, Fire(t)) && Free(Fired(s, t), t)
    ensures |Fired(s, t).txns[t].queue| == |s.txns[t].queue| - 1
  {
    var x := s.txns[t];
    assert x.queue[0] in x.queue && forall k :: k in x.queue[1..] ==> k in x.queue;
    assert Fired(s, t).txns[t].queue == x.queue[1..];
    forall k | k in x.queue[1..] ensures LockFree(Fired(s, t), t, k) { assert LockFree(s, t, k); }
  }

  // The triggers a committing transaction still has to fire, fired.
  lemma {:induction false} CanFinish(s: Server, t: TxnId) returns (actions: seq<Action>, v: Server)
    requires Inv(s) && Free(s, t)
    ensures Steps(s, actions, v) && GoesOn(actions, t) && Inv(v) && Enabled(v, Commit(t))
    decreases |s.txns[t].queue|
  {
    if s.txns[t].queue == [] {
      actions, v := [], s;
    } else {
      FireKeepsFree(s, t);
      NextKeepsInv(s, Fire(t));
      var rest;
      rest, v := CanFinish(Fired(s, t), t);
      actions := [Fire(t)] + rest;
      assert actions[1..] == rest;
    }
  }

  function EmptyServer(): Server { Server(map[], 0, None, map[], [], [], map[]) }

  // The device: how far the queries of its current pull have got, its cursor and its copy.
  datatype World = World(server: Server, marks: seq<nat>, cursor: nat, copy: map<Key, Data>)

  datatype Event = Db(a: Action) | Query | Finish(p: Pull, copy: map<Key, Data>)

  ghost predicate Possible(entities: nat, w: World, e: Event) {
    match e
    case Db(a) => Inv(w.server) && Enabled(w.server, a)
    case Query => |w.marks| < entities
    case Finish(p, copy) =>
      && |w.marks| == entities && p.marks == w.marks && p.since == w.cursor
      && p.Of(w.server.log) && Applied(w.server.log, w.copy, p.page, copy)
  }

  // At most one stamp committed between the first and the last query of the pull.
  ghost predicate Undisturbed(e: Event) {
    e.Finish? && |e.p.marks| > 0 ==> e.p.Last() <= e.p.First() + 1
  }

  ghost function After(entities: nat, w: World, e: Event): World
    requires Possible(entities, w, e)
  {
    match e
    case Db(a) => w.(server := Next(w.server, a))
    case Query => w.(marks := w.marks + [|w.server.log|])
    case Finish(p, copy) => w.(marks := [], cursor := p.next, copy := copy)
  }

  ghost predicate Happens(entities: nat, w: World, events: seq<Event>, v: World)
    decreases |events|
  {
    if events == [] then v == w
    else Possible(entities, w, events[0]) && Undisturbed(events[0]) &&
         Happens(entities, After(entities, w, events[0]), events[1..], v)
  }

  ghost predicate WorldInv(entities: nat, w: World) {
    && Inv(w.server)
    && w.cursor <= |w.server.log| && NoSkip(w.server.log, entities, w.cursor, w.copy)
    && (forall i :: 0 <= i < |w.marks| ==> w.cursor <= w.marks[i] <= |w.server.log|)
    && (forall i, j :: 0 <= i <= j < |w.marks| ==> w.marks[i] <= w.marks[j])
  }

  lemma EventKeepsInv(entities: nat, w: World, e: Event)
    requires WorldInv(entities, w) && Possible(entities, w, e) && Undisturbed(e)
    ensures WorldInv(entities, After(entities, w, e))
  {
    match e
    case Db(a) =>
      NextKeepsInv(w.server, a);
      NoSkipGrows(w.server.log, Next(w.server, a).log, entities, w.cursor, w.copy);
    case Query =>
    case Finish(p, copy) => PullKeepsNoSkip(w.server.log, p, w.copy, copy);
  }

  lemma {:induction false} HappensKeepsInv(entities: nat, w: World, events: seq<Event>, v: World)
    requires WorldInv(entities, w) && Happens(entities, w, events, v)
    ensures WorldInv(entities, v)
    decreases |events|
  {
    if events != [] {
      EventKeepsInv(entities, w, events[0]);
      HappensKeepsInv(entities, After(entities, w, events[0]), events[1..], v);
    }
  }

  ghost predicate Reachable(entities: nat, v: World) {
    exists events :: Happens(entities, World(EmptyServer(), [], 0, map[]), events, v)
  }

  lemma ReachableInv(entities: nat, v: World)
    requires Reachable(entities, v)
    ensures WorldInv(entities, v)
  {
    var w := World(EmptyServer(), [], 0, map[]);
    var events :| Happens(entities, w, events, v);
    HappensKeepsInv(entities, w, events, v);
  }

  /**
   * In every interleaving, the numbers the committed transactions drew, one transaction after the other in
   * commit order, are exactly 1, 2, 3, ... up to the counter; each row carries a number its last writer drew,
   * and no two rows carry the same.
   */
  lemma SeqOrderIsCommitOrder(entities: nat, v: World)
    requires Reachable(entities, v)
    ensures AllDrawn(v.server.blocks) == Range(1, v.server.counter + 1)
    ensures forall k :: k in v.server.rows ==> InWritersBlock(v.server, k)
    ensures var rows := v.server.rows;
      forall k, l :: k in rows && l in rows && rows[k].seq_ == rows[l].seq_ ==> k == l
  {
    ReachableInv(entities, v);
    RowsAreCurrent(v.server.log);
  }

  /** An aborted transaction leaves counter, rows and history as they were, whatever it drew. */
  lemma AbortLeavesNoGap(s: Server, t: TxnId, u: TxnId)
    requires Inv(s) && Enabled(s, Abort(t)) && s.txns[t].drawn != []
    ensures var v := Next(s, Abort(t));
      && v.rows == s.rows && v.counter == s.counter && v.log == s.log && v.holder.None?
      && (u in v.txns ==> CounterSeen(v, v.txns[u]) == s.counter)
  {
    assert s.holder == Some(t);
    if u in s.txns && u != t { assert s.txns[u].issued == []; }
  }

  /**
   * In every such run each committed row the device can see is up to date in its copy (a tombstone: absent)
   * or carries a number above its cursor.
   */
  lemma NoChangeIsSkipped(entities: nat, v: World, k: Key)
    requires Reachable(entities, v) && k in v.server.rows && k.entity < entities
    ensures var row := v.server.rows[k];
      || row.seq_ > v.cursor
      || (if row.image.deleted then k !in v.copy else k in v.copy && v.copy[k] == row.image.data)
  {
    ReachableInv(entities, v);
    RowsAreCurrent(v.server.log);
    var n := v.server.rows[k].seq_;
    assert Current(v.server.log, n);
    if n <= v.cursor { assert Holds(v.server.log, v.copy, n); }
  }

  // The device holds exactly the live rows of the entities it asks for.
  ghost predicate Mirrors(entities: nat, rows: map<Key, Row>, copy: map<Key, Data>) {
    && (forall k :: k in copy <==> k in rows && !rows[k].image.deleted && k.entity < entities)
    && (forall k :: k in copy ==> copy[k] == rows[k].image.data)
  }

  lemma InSyncMirrors(entities: nat, log: Log, copy: map<Key, Data>)
    requires InSync(log, entities, copy)
    ensures Mirrors(entities, RowsOf(log), copy)
  {
    RowsAreCurrent(log);
    forall k | k in RowsOf(log) && k.entity < entities ensures Holds(log, copy, RowsOf(log)[k].seq_) {
      assert Current(log, RowsOf(log)[k].seq_);
    }
  }

  /**
   * From any reachable world, pulling until no more comes, with no commit in between, leaves the device with exactly
   * the live rows of the server's tables, tombstones gone.
   */
  method CatchUp(entities: nat, limit: nat, device: Device, log: Log, ghost w: World)
    requires Reachable(entities, w) && log == w.server.log && device.cursor == w.cursor && device.rows == w.copy
    requires entities > 0 && limit > 0
    modifies device
    ensures Mirrors(entities, w.server.rows, device.rows)
  {
    ReachableInv(entities, w);
    device.PullAll(log, entities, limit);
    InSyncMirrors(entities, log, device.rows);
  }
}
