/** The account and journal services as one state machine, each call one atomic step. */
module Journal {
  import opened Accounts
  import opened Collections
  import opened Options

  const KINDS := {"asset", "liability", "equity", "income", "expense"}
  const SUBTYPES := {"cash", "bank", "accounts_receivable", "accounts_payable", "inventory", "cogs", "sales_revenue",
                     "tax_payable", "other"}

  // Amounts in cents, as stored.
  datatype JournalLine = JournalLine(account: Id, debit: nat, credit: nat)
  datatype Status = Draft | Posted
  datatype Entry = Entry(business: nat, status: Status, lines: seq<JournalLine>, deleted: bool)

  datatype Reply = Done | NotFound | BadRequest | Conflict

  datatype AccountData = AccountData(parent: Option<Id>, code: string, kind: string, subtype: Option<string>,
                                     active: bool)

  // None is a field the request leaves alone; `parent` is Some(p) when the request names the parent field.
  datatype AccountPatch = AccountPatch(parent: Option<Option<Id>>, code: Option<string>, kind: Option<string>,
                                       subtype: Option<string>, active: Option<bool>)

  function Debits(lines: seq<JournalLine>): nat {
    if lines == [] then 0 else lines[0].debit + Debits(lines[1..])
  }

  function Credits(lines: seq<JournalLine>): nat {
    if lines == [] then 0 else lines[0].credit + Credits(lines[1..])
  }

  // What the lines add up to, debits against credits.
  ghost function Net(lines: seq<JournalLine>): int {
    if lines == [] then 0 else lines[0].debit - lines[0].credit + Net(lines[1..])
  }

  lemma {:induction false} NetIsDifference(lines: seq<JournalLine>)
    ensures Net(lines) == Debits(lines) - Credits(lines)
  {
    if lines != [] { NetIsDifference(lines[1..]); }
  }

  // What may be posted: two lines or more, and nothing left over.
  ghost predicate Balanced(lines: seq<JournalLine>) { |lines| >= 2 && Net(lines) == 0 }

  predicate CanPost(lines: seq<JournalLine>) { |lines| >= 2 && Debits(lines) == Credits(lines) }

  // A live account of the business.
  ghost predicate IsLive(c: Chart, b: nat, a: Id) { a in c && c[a].business == b && !c[a].deleted }

  // The entry's accounts are live accounts of its business.
  ghost predicate LinesOk(c: Chart, e: Entry) {
    forall l :: l in e.lines ==> IsLive(c, e.business, l.account)
  }

  ghost predicate EntryOk(c: Chart, e: Entry) {
    && LinesOk(c, e)
    && (e.status.Posted? ==> Balanced(e.lines) && !e.deleted)
    && (e.deleted ==> e.lines == [])
  }

  // Some line, posted or not, is on the account.
  ghost predicate LineOn(entries: seq<Entry>, a: Id) {
    exists i, j :: 0 <= i < |entries| && 0 <= j < |entries[i].lines| && entries[i].lines[j].account == a
  }

  predicate HasLines(entries: seq<Entry>, a: Id) {
    exists i, j :: 0 <= i < |entries| && 0 <= j < |entries[i].lines| && entries[i].lines[j].account == a
  }

  ghost predicate CodesUnique(c: Chart) {
    forall a, b :: a in c && b in c && !c[a].deleted && !c[b].deleted && c[a].business == c[b].business &&
      c[a].code == c[b].code
      ==> a == b
  }

  ghost predicate Sound(c: Chart, entries: seq<Entry>) {
    && Acyclic(c) && ParentsExist(c) && LiveParents(c) && CodesUnique(c)
    && forall i :: 0 <= i < |entries| ==> EntryOk(c, entries[i])
  }

  // What no call may do to an account that has lines.
  ghost predicate Frozen(before: Account, after: Account) {
    before.business == after.business && before.kind == after.kind && before.subtype == after.subtype &&
      before.deleted == after.deleted
  }

  // History only moves forward: entries are never dropped or moved to another business, a posted entry never
  // changes, and an account with lines keeps its type and stays.
  ghost predicate Follows(c: Chart, entries: seq<Entry>, c': Chart, entries': seq<Entry>) {
    && |entries| <= |entries'|
    && (forall i :: 0 <= i < |entries| ==> entries'[i].business == entries[i].business)
    && (forall i :: 0 <= i < |entries| && entries[i].status.Posted? ==> entries'[i] == entries[i])
    && c.Keys <= c'.Keys
    && (forall a :: a in c && LineOn(entries, a) ==> Frozen(c[a], c'[a]))
  }

  ghost predicate PostedTo(entries: seq<Entry>, a: Id) {
    exists i, j :: 0 <= i < |entries| && entries[i].status.Posted? && 0 <= j < |entries[i].lines| &&
      entries[i].lines[j].account == a
  }

  // What a whole run keeps: every posted entry as it was, and the type of every account posted to.
  ghost predicate Kept(c: Chart, entries: seq<Entry>, c': Chart, entries': seq<Entry>) {
    && |entries| <= |entries'|
    && (forall i :: 0 <= i < |entries| ==> entries'[i].business == entries[i].business)
    && (forall i :: 0 <= i < |entries| && entries[i].status.Posted? ==> entries'[i] == entries[i])
    && c.Keys <= c'.Keys
    && (forall a :: a in c && PostedTo(entries, a) ==> Frozen(c[a], c'[a]))
  }

  lemma FollowsKeeps(c0: Chart, entries0: seq<Entry>, c: Chart, entries: seq<Entry>, c': Chart, entries': seq<Entry>)
    requires Kept(c0, entries0, c, entries) && Follows(c, entries, c', entries')
    ensures Kept(c0, entries0, c', entries')
  {
    forall a | a in c0 && PostedTo(entries0, a) ensures Frozen(c0[a], c'[a]) {
      var i, j :| 0 <= i < |entries0| && entries0[i].status.Posted? && 0 <= j < |entries0[i].lines| &&
        entries0[i].lines[j].account == a;
      assert entries[i].lines[j].account == a;
      assert LineOn(entries, a);
    }
  }

  // A change of one account that keeps the accounts lines point at live and in place.
  lemma ReplaceAccountKeepsEntries(c: Chart, entries: seq<Entry>, a: Id, x: Account)
    requires forall i :: 0 <= i < |entries| ==> EntryOk(c, entries[i])
    requires a in c ==> x.business == c[a].business && (LineOn(entries, a) ==> x.deleted == c[a].deleted)
    ensures forall i :: 0 <= i < |entries| ==> EntryOk(c[a := x], entries[i])
  {
    forall i, l | 0 <= i < |entries| && l in entries[i].lines
      ensures IsLive(c[a := x], entries[i].business, l.account)
    {
      var j :| 0 <= j < |entries[i].lines| && entries[i].lines[j] == l;
      assert IsLive(c, entries[i].business, l.account);
      if l.account == a { assert LineOn(entries, a); }
    }
  }

  predicate CodeTaken(c: Chart, b: nat, code: string, except: Option<Id>) {
    exists a :: a in c && Live(c, b, a) && c[a].code == code && except != Some(a)
  }

  predicate ValidTypes(kind: Option<string>, subtype: Option<string>) {
    (kind.Some? ==> kind.value in KINDS) && (subtype.Some? ==> subtype.value in SUBTYPES)
  }

  // The account a request asks for.
  ghost predicate IsNew(b: nat, d: AccountData, x: Account) {
    && x.business == b && x.parent == d.parent && x.code == d.code && x.kind == d.kind && x.subtype == d.subtype
    && x.active == d.active && !x.system && !x.deleted
  }

  ghost predicate CodeFree(c: Chart, b: nat, code: string, a: Id) {
    forall x :: IsLive(c, b, x) && c[x].code == code ==> x == a
  }

  ghost predicate MayCreate(c: Chart, b: nat, a: Id, d: AccountData) {
    && a !in c && d.kind in KINDS && (d.subtype.Some? ==> d.subtype.value in SUBTYPES)
    && (d.parent.Some? ==> IsLive(c, b, d.parent.value))
    && CodeFree(c, b, d.code, a)
  }

  ghost predicate ParentMayBe(c: Chart, b: nat, a: Id, parent: Option<Id>)
    requires a in c
  {
    parent.Some? ==> IsLive(c, b, parent.value) && Acyclic(WithParent(c, a, parent))
  }

  ghost predicate CodeMayBe(c: Chart, b: nat, a: Id, code: Option<string>)
    requires a in c
  {
    code.Some? ==> !c[a].system && CodeFree(c, b, code.value, a)
  }

  ghost predicate TypesMayBe(x: Account, p: AccountPatch, hasLines: bool) {
    && (p.kind.Some? ==> p.kind.value in KINDS && (hasLines ==> p.kind.value == x.kind))
    && (p.subtype.Some? ==> p.subtype.value in SUBTYPES && (hasLines ==> p.subtype == x.subtype))
  }

  ghost predicate MayUpdate(c: Chart, entries: seq<Entry>, b: nat, a: Id, p: AccountPatch) {
    && IsLive(c, b, a)
    && ParentMayBe(c, b, a, if p.parent.Some? then p.parent.value else None)
    && CodeMayBe(c, b, a, p.code)
    && TypesMayBe(c[a], p, LineOn(entries, a))
  }

  // Each field is the request's if it names one, and as before if not; nothing else changes.
  ghost predicate IsPatched(x: Account, p: AccountPatch, y: Account) {
    && (if p.parent.Some? then y.parent == p.parent.value else y.parent == x.parent)
    && (if p.code.Some? then y.code == p.code.value else y.code == x.code)
    && (if p.kind.Some? then y.kind == p.kind.value else y.kind == x.kind)
    && (if p.subtype.Some? then y.subtype == p.subtype else y.subtype == x.subtype)
    && (if p.active.Some? then y.active == p.active.value else y.active == x.active)
    && y.business == x.business && y.system == x.system && y.deleted == x.deleted
  }

  ghost predicate MayDelete(c: Chart, entries: seq<Entry>, b: nat, a: Id) {
    && IsLive(c, b, a) && !c[a].system && !LineOn(entries, a)
    && forall x :: IsLive(c, b, x) ==> c[x].parent != Some(a)
  }

  lemma SelfParentIsCycle(c: Chart, a: Id)
    requires a in c
    ensures !Acyclic(WithParent(c, a, Some(a)))
  {
    assert Up(WithParent(c, a, Some(a)), a, 1) == Some(a);
  }

  lemma CreateKeepsSound(c: Chart, entries: seq<Entry>, b: nat, a: Id, d: AccountData, x: Account)
    requires Sound(c, entries) && MayCreate(c, b, a, d) && IsNew(b, d, x)
    ensures Sound(c[a := x], entries) && Follows(c, entries, c[a := x], entries)
  {
    NewAccountKeepsForest(c, a, x);
    ReplaceAccountKeepsEntries(c, entries, a, x);
  }

  lemma UpdateKeepsForest(c: Chart, entries: seq<Entry>, b: nat, a: Id, p: AccountPatch, x: Account)
    requires Sound(c, entries) && MayUpdate(c, entries, b, a, p) && IsPatched(c[a], p, x)
    ensures Acyclic(c[a := x])
  {
    var d := if p.parent.None? then c else WithParent(c, a, p.parent.value);
    if p.parent.Some? && p.parent.value.None? { RootKeepsForest(c, a); }
    SameParentsSameForest(d, c[a := x]);
  }

  lemma UpdateKeepsSound(c: Chart, entries: seq<Entry>, b: nat, a: Id, p: AccountPatch, x: Account)
    requires Sound(c, entries) && MayUpdate(c, entries, b, a, p) && IsPatched(c[a], p, x)
    ensures Sound(c[a := x], entries) && Follows(c, entries, c[a := x], entries)
  {
    UpdateKeepsForest(c, entries, b, a, p, x);
    ReplaceAccountKeepsEntries(c, entries, a, x);
  }

  lemma DeleteKeepsSound(c: Chart, entries: seq<Entry>, b: nat, a: Id)
    requires Sound(c, entries) && MayDelete(c, entries, b, a)
    ensures Sound(c[a := c[a].(deleted := true)], entries)
    ensures Follows(c, entries, c[a := c[a].(deleted := true)], entries)
  {
    var d := c[a := c[a].(deleted := true)];
    SameParentsSameForest(c, d);
    ReplaceAccountKeepsEntries(c, entries, a, c[a].(deleted := true));
    forall x | x in d && !d[x].deleted && d[x].parent.Some? ensures Live(d, d[x].business, d[x].parent.value) {
      assert Live(c, c[x].business, c[x].parent.value);
      assert x !in Children(c, b, a);
    }
  }

  // _validate_accounts(): every account exists in the business, live and active.
  predicate Usable(c: Chart, b: nat, lines: seq<JournalLine>) {
    forall l :: l in lines ==> Live(c, b, l.account) && c[l.account].active
  }

  // All accounts named are live and active ones of the business.
  ghost predicate AllActive(c: Chart, b: nat, lines: seq<JournalLine>) {
    forall l :: l in lines ==> IsLive(c, b, l.account) && c[l.account].active
  }

  predicate EntryLive(entries: seq<Entry>, b: nat, i: nat) {
    i < |entries| && entries[i].business == b && !entries[i].deleted
  }

  ghost predicate Exists(entries: seq<Entry>, b: nat, i: nat) {
    i < |entries| && !entries[i].deleted && entries[i].business == b
  }

  ghost predicate IsDraft(entries: seq<Entry>, b: nat, i: nat) { Exists(entries, b, i) && entries[i].status == Draft }

  lemma EntryKeepsSound(c: Chart, entries: seq<Entry>, i: nat, e: Entry)
    requires Sound(c, entries) && i < |entries| && EntryOk(c, e)
    requires entries[i].status.Draft? && e.business == entries[i].business
    ensures Sound(c, entries[i := e]) && Follows(c, entries, c, entries[i := e])
  {
  }

  // _validate_parent() of an account that is being changed.
  method ValidateParent(c: Chart, b: nat, a: Id, parent: Option<Id>) returns (r: Reply)
    requires Acyclic(c) && LiveParents(c) && Live(c, b, a)
    ensures r.Done? <==> ParentMayBe(c, b, a, parent)
  {
    if parent.None? { return Done; }
    SelfParentIsCycle(c, a);
    if parent.value == a { return BadRequest; }
    if !Live(c, b, parent.value) { return NotFound; }
    var ok := NoParentCycle(c, b, a, parent.value);
    return if ok then Done else BadRequest;
  }

  // The request's types, assigned to the row one by one.
  method PatchTypes(x: Account, p: AccountPatch, hasLines: bool) returns (r: Reply, y: Account)
    ensures r.Done? <==> TypesMayBe(x, p, hasLines)
    ensures r.Done? ==> y == x.(kind := y.kind, subtype := y.subtype)
    ensures r.Done? ==> y.kind == (if p.kind.Some? then p.kind.value else x.kind)
    ensures r.Done? ==> y.subtype == (if p.subtype.Some? then p.subtype else x.subtype)
  {
    y := x;
    if p.kind.Some? {
      if p.kind.value !in KINDS { return BadRequest, x; }
      if hasLines && p.kind.value != y.kind { return BadRequest, x; }
      y := y.(kind := p.kind.value);
    }
    if p.subtype.Some? {
      if p.subtype.value !in SUBTYPES { return BadRequest, x; }
      if hasLines && p.subtype != y.subtype { return BadRequest, x; }
      y := y.(subtype := p.subtype);
    }
    r := Done;
  }

  // The request's fields, assigned to the row one by one.
  method PatchFields(c: Chart, b: nat, a: Id, p: AccountPatch, hasLines: bool) returns (r: Reply, x: Account)
    requires a in c
    ensures r.Done? <==> CodeMayBe(c, b, a, p.code) && TypesMayBe(c[a], p, hasLines)
    ensures r.Done? ==> IsPatched(c[a], p, x)
  {
    x := c[a];
    if p.parent.Some? { x := x.(parent := p.parent.value); }
    if p.code.Some? {
      if x.system { return BadRequest, x; }
      if CodeTaken(c, b, p.code.value, Some(a)) { return Conflict, x; }
      x := x.(code := p.code.value);
    }
    if p.active.Some? { x := x.(active := p.active.value); }
    r, x := PatchTypes(x, p, hasLines);
  }

  class Books {
    var accounts: Chart
    var entries: seq<Entry>

    ghost predicate Valid()
      reads this
    {
      Sound(accounts, entries)
    }

    constructor ()
      ensures Valid() && accounts == map[] && entries == []
    {
      accounts, entries := map[], [];
    }

    method CreateAccount(b: nat, a: Id, d: AccountData) returns (r: Reply)
      requires Valid()
      modifies this`accounts
      ensures Valid() && Follows(old(accounts), old(entries), accounts, entries)
      ensures r.Done? <==> MayCreate(old(accounts), b, a, d)
      ensures r.Done? ==> a in accounts && IsNew(b, d, accounts[a]) && accounts - {a} == old(accounts)
      ensures !r.Done? ==> accounts == old(accounts)
    {
      if !ValidTypes(Some(d.kind), d.subtype) { return BadRequest; }
      if d.parent.Some? && !Live(accounts, b, d.parent.value) { return NotFound; }
      if CodeTaken(accounts, b, d.code, None) { return Conflict; }
      if a in accounts { return Conflict; }
      var x := Account(b, d.parent, d.code, d.kind, d.subtype, false, d.active, false);
      CreateKeepsSound(accounts, entries, b, a, d, x);
      accounts := accounts[a := x];
      return Done;
    }

    /** update_chart_of_account(): nothing is kept of a refused request. */
    method UpdateAccount(b: nat, a: Id, p: AccountPatch) returns (r: Reply)
      requires Valid()
      modifies this`accounts
      ensures Valid() && Follows(old(accounts), old(entries), accounts, entries)
      ensures r.Done? <==> MayUpdate(old(accounts), old(entries), b, a, p)
      ensures r.Done? ==> a in accounts && IsPatched(old(accounts)[a], p, accounts[a])
      ensures r.Done? ==> accounts == old(accounts)[a := accounts[a]]
      ensures !r.Done? ==> accounts == old(accounts)
    {
      if !Live(accounts, b, a) { return NotFound; }
      var hasLines := HasLines(entries, a);
      r := ValidateParent(accounts, b, a, if p.parent.Some? then p.parent.value else None);
      if r != Done { return; }
      var x;
      r, x := PatchFields(accounts, b, a, p, hasLines);
      if r != Done { return; }
      UpdateKeepsSound(accounts, entries, b, a, p, x);
      accounts := accounts[a := x];
    }

    method DeleteAccount(b: nat, a: Id) returns (r: Reply)
      requires Valid()
      modifies this`accounts
      ensures Valid() && Follows(old(accounts), old(entries), accounts, entries)
      ensures r.Done? <==> MayDelete(old(accounts), old(entries), b, a)
      ensures r.NotFound? <==> !IsLive(old(accounts), b, a)
      ensures accounts == if r.Done? then old(accounts)[a := old(accounts)[a].(deleted := true)] else old(accounts)
    {
      if !Live(accounts, b, a) { return NotFound; }
      if accounts[a].system || Children(accounts, b, a) != {} || HasLines(entries, a) {
        assert forall x :: x in Children(accounts, b, a) ==> IsLive(accounts, b, x) && accounts[x].parent == Some(a);
        return BadRequest;
      }
      assert forall x :: IsLive(accounts, b, x) && accounts[x].parent == Some(a) ==> x in Children(accounts, b, a);
      DeleteKeepsSound(accounts, entries, b, a);
      accounts := accounts[a := accounts[a].(deleted := true)];
      return Done;
    }

    method CreateEntry(b: nat, lines: seq<JournalLine>) returns (r: Reply)
      requires Valid()
      modifies this`entries
      ensures Valid() && Follows(old(accounts), old(entries), accounts, entries)
      ensures r.Done? <==> AllActive(accounts, b, lines)
      ensures entries == if r.Done? then old(entries) + [Entry(b, Draft, lines, false)] else old(entries)
    {
      if !Usable(accounts, b, lines) { return BadRequest; }
      entries := entries + [Entry(b, Draft, lines, false)];
      return Done;
    }

    method UpdateEntry(b: nat, i: nat, lines: Option<seq<JournalLine>>) returns (r: Reply)
      requires Valid()
      modifies this`entries
      ensures Valid() && Follows(old(accounts), old(entries), accounts, entries)
      ensures r.Done? <==> IsDraft(old(entries), b, i) && (lines.Some? ==> AllActive(accounts, b, lines.value))
      ensures r.NotFound? <==> !Exists(old(entries), b, i)
      ensures entries ==
        if r.Done? && lines.Some? then old(entries)[i := old(entries)[i].(lines := lines.value)] else old(entries)
    {
      if !EntryLive(entries, b, i) { return NotFound; }
      if !entries[i].status.Draft? { return BadRequest; }
      if lines.Some? {
        if !Usable(accounts, b, lines.value) { return BadRequest; }
        EntryKeepsSound(accounts, entries, i, entries[i].(lines := lines.value));
        entries := entries[i := entries[i].(lines := lines.value)];
      }
      return Done;
    }

    method DeleteEntry(b: nat, i: nat) returns (r: Reply)
      requires Valid()
      modifies this`entries
      ensures Valid() && Follows(old(accounts), old(entries), accounts, entries)
      ensures r.Done? <==> IsDraft(old(entries), b, i)
      ensures r.NotFound? <==> !Exists(old(entries), b, i)
      ensures entries ==
        if r.Done? then old(entries)[i := old(entries)[i].(lines := [], deleted := true)] else old(entries)
    {
      if !EntryLive(entries, b, i) { return NotFound; }
      if !entries[i].status.Draft? { return BadRequest; }
      EntryKeepsSound(accounts, entries, i, entries[i].(lines := [], deleted := true));
      entries := entries[i := entries[i].(lines := [], deleted := true)];
      return Done;
    }

    method PostEntry(b: nat, i: nat) returns (r: Reply)
      requires Valid()
      modifies this`entries
      ensures Valid() && Follows(old(accounts), old(entries), accounts, entries)
      ensures r.Done? <==> IsDraft(old(entries), b, i) && Balanced(old(entries)[i].lines)
                           && AllActive(accounts, b, old(entries)[i].lines)
      ensures r.NotFound? <==> !Exists(old(entries), b, i)
      ensures entries == if r.Done? then old(entries)[i := old(entries)[i].(status := Posted)] else old(entries)
    {
      if !EntryLive(entries, b, i) { return NotFound; }
      var e := entries[i];
      NetIsDifference(e.lines);
      if !e.status.Draft? { return BadRequest; }
      if !CanPost(e.lines) { return BadRequest; }
      if !Usable(accounts, b, e.lines) { return BadRequest; }
      EntryKeepsSound(accounts, entries, i, e.(status := Posted));
      entries := entries[i := e.(status := Posted)];
      return Done;
    }

    method Serve(command: Command) returns (r: Reply)
      requires Valid()
      modifies this
      ensures Valid() && Follows(old(accounts), old(entries), accounts, entries)
      ensures Served(command, old(accounts), old(entries), r, accounts, entries)
    {
      match command
      case CreateAccount(b, a, d) => r := CreateAccount(b, a, d);
      case UpdateAccount(b, a, p) => r := UpdateAccount(b, a, p);
      case DeleteAccount(b, a) => r := DeleteAccount(b, a);
      case CreateEntry(b, lines) => r := CreateEntry(b, lines);
      case UpdateEntry(b, i, lines) => r := UpdateEntry(b, i, lines);
      case DeleteEntry(b, i) => r := DeleteEntry(b, i);
      case PostEntry(b, i) => r := PostEntry(b, i);
    }

    /**
     * Any run of calls: posted entries stay exactly as they were posted, the accounts they are posted to keep
     * their type, and every business's trial balance is nil: over all its posted lines the accounts' turnovers,
     * debits less credits, add up to nothing. Every line refers to a live account of its business.
     */
    method ServeAll(commands: seq<Command>) returns (replies: seq<Reply>, ghost trace: seq<(Chart, seq<Entry>)>)
      requires Valid()
      modifies this
      ensures Valid() && Traced(commands, replies, trace)
      ensures trace[0] == (old(accounts), old(entries)) && trace[|commands|] == (accounts, entries)
      ensures Kept(old(accounts), old(entries), accounts, entries)
      ensures forall b, chart :: IsTrialBalance(chart, PostedLines(entries, b)) ==>
        Turnovers(chart, PostedLines(entries, b)) == 0
      ensures forall i :: 0 <= i < |entries| && entries[i].status.Posted? ==> |entries[i].lines| >= 2
      ensures forall i, l :: 0 <= i < |entries| && l in entries[i].lines ==>
        l.account in accounts && accounts[l.account].business == entries[i].business && !accounts[l.account].deleted
    {
      replies, trace := [], [(accounts, entries)];
      for n := 0 to |commands|
        invariant Valid() && Kept(old(accounts), old(entries), accounts, entries)
        invariant Traced(commands[..n], replies, trace)
        invariant trace[0] == (old(accounts), old(entries)) && trace[n] == (accounts, entries)
      {
        ghost var c, es := accounts, entries;
        var r := Serve(commands[n]);
        FollowsKeeps(old(accounts), old(entries), c, es, accounts, entries);
        TracedOneMore(commands, n, replies, trace, r, accounts, entries);
        replies, trace := replies + [r], trace + [(accounts, entries)];
      }
      assert commands[..|commands|] == commands;
      forall b, chart | IsTrialBalance(chart, PostedLines(entries, b))
        ensures Turnovers(chart, PostedLines(entries, b)) == 0
      {
        PostedBalances(accounts, entries, b, chart);
      }
      assert forall i, l :: 0 <= i < |entries| && l in entries[i].lines ==>
        IsLive(accounts, entries[i].business, l.account);
    }
  }

  datatype Command =
    | CreateAccount(b: nat, a: Id, d: AccountData)
    | UpdateAccount(b: nat, a: Id, p: AccountPatch)
    | DeleteAccount(b: nat, a: Id)
    | CreateEntry(b: nat, lines: seq<JournalLine>)
    | UpdateEntry(b: nat, i: nat, newLines: Option<seq<JournalLine>>)
    | DeleteEntry(b: nat, i: nat)
    | PostEntry(b: nat, i: nat)

  // What each command does, and when it does it.
  ghost predicate Served(command: Command, c: Chart, es: seq<Entry>, r: Reply, c': Chart, es': seq<Entry>) {
    match command
    case CreateAccount(b, a, d) =>
      && (r.Done? <==> MayCreate(c, b, a, d)) && es' == es
      && (if r.Done? then a in c' && IsNew(b, d, c'[a]) && c' - {a} == c else c' == c)
    case UpdateAccount(b, a, p) =>
      && (r.Done? <==> MayUpdate(c, es, b, a, p)) && es' == es
      && (if r.Done? then a in c' && IsPatched(c[a], p, c'[a]) && c' == c[a := c'[a]] else c' == c)
    case DeleteAccount(b, a) =>
      && (r.Done? <==> MayDelete(c, es, b, a)) && es' == es
      && c' == if r.Done? then c[a := c[a].(deleted := true)] else c
    case CreateEntry(b, lines) =>
      && (r.Done? <==> AllActive(c, b, lines)) && c' == c
      && es' == if r.Done? then es + [Entry(b, Draft, lines, false)] else es
    case UpdateEntry(b, i, lines) =>
      && (r.Done? <==> IsDraft(es, b, i) && (lines.Some? ==> AllActive(c, b, lines.value))) && c' == c
      && es' == if r.Done? && lines.Some? then es[i := es[i].(lines := lines.value)] else es
    case DeleteEntry(b, i) =>
      && (r.Done? <==> IsDraft(es, b, i)) && c' == c
      && es' == if r.Done? then es[i := es[i].(lines := [], deleted := true)] else es
    case PostEntry(b, i) =>
      && (r.Done? <==> IsDraft(es, b, i) && Balanced(es[i].lines) && AllActive(c, b, es[i].lines)) && c' == c
      && es' == if r.Done? then es[i := es[i].(status := Posted)] else es
  }

  // Each command leads from one state to the next.
  ghost predicate Traced(commands: seq<Command>, replies: seq<Reply>, trace: seq<(Chart, seq<Entry>)>) {
    && |replies| == |commands| && |trace| == |commands| + 1
    && forall n {:trigger commands[n]} :: 0 <= n < |commands| ==>
         Served(commands[n], trace[n].0, trace[n].1, replies[n], trace[n + 1].0, trace[n + 1].1)
  }

  lemma TracedOneMore(commands: seq<Command>, n: nat, replies: seq<Reply>, trace: seq<(Chart, seq<Entry>)>, r: Reply,
                      c: Chart, es: seq<Entry>)
    requires n < |commands| && Traced(commands[..n], replies, trace)
    requires Served(commands[n], trace[n].0, trace[n].1, r, c, es)
    ensures Traced(commands[..n + 1], replies + [r], trace + [(c, es)])
  {
    var all, rs, tr := commands[..n + 1], replies + [r], trace + [(c, es)];
    forall m {:trigger all[m]} | 0 <= m < n + 1
      ensures Served(all[m], tr[m].0, tr[m].1, rs[m], tr[m + 1].0, tr[m + 1].1)
    {
      if m < n {
        assert all[m] == commands[..n][m] && rs[m] == replies[m] && tr[m] == trace[m] && tr[m + 1] == trace[m + 1];
      } else {
        assert all[m] == commands[n] && rs[m] == r && tr[m] == trace[n] && tr[m + 1] == (c, es);
      }
    }
  }

  // All posted lines of a business.
  ghost function PostedLines(entries: seq<Entry>, b: nat): seq<JournalLine> {
    if entries == [] then []
    else
      var e := entries[0];
      (if e.status.Posted? && e.business == b then e.lines else []) + PostedLines(entries[1..], b)
  }

  // What the lines put on one account, debits less credits.
  ghost function Turnover(a: Id, lines: seq<JournalLine>): int {
    if lines == [] then 0
    else (if lines[0].account == a then lines[0].debit - lines[0].credit else 0) + Turnover(a, lines[1..])
  }

  ghost function Turnovers(accounts: seq<Id>, lines: seq<JournalLine>): int {
    if accounts == [] then 0 else Turnover(accounts[0], lines) + Turnovers(accounts[1..], lines)
  }

  // A list of different accounts with every account of the lines on it.
  ghost predicate IsTrialBalance(accounts: seq<Id>, lines: seq<JournalLine>) {
    Distinct(accounts) && forall l :: l in lines ==> l.account in accounts
  }

  // One more line moves the sum by its own amount, once if its account is on the list.
  lemma {:induction false} TurnoversOneMore(accounts: seq<Id>, lines: seq<JournalLine>)
    requires lines != [] && Distinct(accounts)
    ensures Turnovers(accounts, lines) == Turnovers(accounts, lines[1..]) +
      if lines[0].account in accounts then lines[0].debit - lines[0].credit else 0
  {
    if accounts != [] {
      TurnoversOneMore(accounts[1..], lines);
      if accounts[0] == lines[0].account { assert lines[0].account !in accounts[1..]; }
    }
  }

  lemma {:induction false} TurnoversAreNet(accounts: seq<Id>, lines: seq<JournalLine>)
    requires IsTrialBalance(accounts, lines)
    ensures Turnovers(accounts, lines) == Net(lines)
    decreases |lines|
  {
    if lines == [] {
      NoTurnover(accounts);
    } else {
      assert lines[0] in lines && forall l :: l in lines[1..] ==> l in lines;
      TurnoversOneMore(accounts, lines);
      TurnoversAreNet(accounts, lines[1..]);
    }
  }

  lemma {:induction false} NoTurnover(accounts: seq<Id>)
    ensures Turnovers(accounts, []) == 0
  {
    if accounts != [] { NoTurnover(accounts[1..]); }
  }

  lemma {:induction false} NetAdds(a: seq<JournalLine>, b: seq<JournalLine>)
    ensures Net(a + b) == Net(a) + Net(b)
  {
    if a == [] {
      assert a + b == b;
    } else {
      NetAdds(a[1..], b);
      assert (a + b)[1..] == a[1..] + b;
    }
  }

  lemma {:induction false} PostedNet(c: Chart, entries: seq<Entry>, b: nat)
    requires forall i :: 0 <= i < |entries| ==> EntryOk(c, entries[i])
    ensures Net(PostedLines(entries, b)) == 0
  {
    if entries != [] {
      var e := entries[0];
      assert EntryOk(c, e);
      NetAdds(if e.status.Posted? && e.business == b then e.lines else [], PostedLines(entries[1..], b));
      PostedNet(c, entries[1..], b);
    }
  }

  /** The trial balance over any list of accounts that covers the posted lines is nil. */
  lemma PostedBalances(c: Chart, entries: seq<Entry>, b: nat, accounts: seq<Id>)
    requires forall i :: 0 <= i < |entries| ==> EntryOk(c, entries[i])
    requires IsTrialBalance(accounts, PostedLines(entries, b))
    ensures Turnovers(accounts, PostedLines(entries, b)) == 0
  {
    PostedNet(c, entries, b);
    TurnoversAreNet(accounts, PostedLines(entries, b));
  }
}
