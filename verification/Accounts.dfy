/** The chart of accounts as a forest: the parent check, and the tree shown for a list of accounts. */
module Accounts {
  import opened Collections
  import opened Options

  type Id = nat

  datatype Account = Account(business: nat, parent: Option<Id>, code: string, kind: string, subtype: Option<string>,
                             system: bool, active: bool, deleted: bool)

  type Chart = map<Id, Account>

  function ParentOf(c: Chart, a: Id): Option<Id> {
    if a in c then c[a].parent else None
  }

  // The account n steps up from a.
  ghost function Up(c: Chart, a: Id, n: nat): Option<Id>
    decreases n
  {
    if n == 0 then Some(a)
    else if ParentOf(c, a).None? then None
    else Up(c, ParentOf(c, a).value, n - 1)
  }

  // x is a or an ancestor of a.
  ghost predicate Above(c: Chart, x: Id, a: Id) {
    exists n: nat :: Up(c, a, n) == Some(x)
  }

  ghost predicate Acyclic(c: Chart) {
    forall a: Id, n: nat {:trigger Up(c, a, n)} :: n > 0 ==> Up(c, a, n) != Some(a)
  }

  predicate Live(c: Chart, b: nat, a: Id) {
    a in c && c[a].business == b && !c[a].deleted
  }

  // A live account's parent is a live account of the same business.
  ghost predicate LiveParents(c: Chart) {
    forall a :: a in c && !c[a].deleted && c[a].parent.Some? ==> Live(c, c[a].business, c[a].parent.value)
  }

  function WithParent(c: Chart, a: Id, p: Option<Id>): Chart
    requires a in c
  {
    c[a := c[a].(parent := p)]
  }

  lemma {:induction false} UpAdds(c: Chart, a: Id, m: nat, n: nat)
    requires Up(c, a, m).Some?
    ensures Up(c, a, m + n) == Up(c, Up(c, a, m).value, n)
    decreases m
  {
    if m > 0 { UpAdds(c, ParentOf(c, a).value, m - 1, n); }
  }

  // Two charts that differ only in a's parent agree on every path up to its first visit of a.
  lemma {:induction false} SamePath(c: Chart, d: Chart, a: Id, x: Id, n: nat) returns (k: nat)
    requires forall y :: y != a ==> ParentOf(c, y) == ParentOf(d, y)
    ensures k <= n
    ensures (Up(d, x, n) == Up(c, x, n) && k == n) || (Up(c, x, k) == Some(a) && Up(d, x, k) == Some(a))
    decreases n
  {
    if n == 0 || x == a || ParentOf(c, x).None? {
      k := if x == a then 0 else n;
    } else {
      k := SamePath(c, d, a, ParentOf(c, x).value, n - 1);
      k := k + 1;
    }
  }

  lemma {:induction false} MoveFromBelow(c: Chart, d: Chart, a: Id, p: Id, n: nat)
    requires forall y :: y != a ==> ParentOf(c, y) == ParentOf(d, y)
    requires Up(c, p, n) == Some(a)
    ensures Above(d, a, p)
  {
    var k := SamePath(c, d, a, p, n);
    assert Up(d, p, k) == Some(a);
  }

  /** Giving a the parent p keeps the chart a forest exactly when a is not p or an ancestor of p. */
  lemma ParentKeepsForest(c: Chart, a: Id, p: Id)
    requires Acyclic(c) && a in c
    ensures Acyclic(WithParent(c, a, Some(p))) <==> !Above(c, a, p)
  {
    var d := WithParent(c, a, Some(p));
    assert forall y :: y != a ==> ParentOf(c, y) == ParentOf(d, y);
    if Above(c, a, p) {
      var n: nat :| Up(c, p, n) == Some(a);
      MoveFromBelow(c, d, a, p, n);
      var m: nat :| Up(d, p, m) == Some(a);
      assert Up(d, a, m + 1) == Some(a);
    } else {
      forall x: Id, n: nat | n > 0 ensures Up(d, x, n) != Some(x) {
        if Up(d, x, n) == Some(x) { CycleGoesThrough(c, d, a, p, x, n); }
      }
    }
  }

  lemma CycleGoesThrough(c: Chart, d: Chart, a: Id, p: Id, x: Id, n: nat)
    requires Acyclic(c) && a in c && d == WithParent(c, a, Some(p))
    requires n > 0 && Up(d, x, n) == Some(x)
    ensures Above(c, a, p)
  {
    var k := SamePath(c, d, a, x, n);
    assert Up(c, x, n) != Some(x);
    // The cycle passes a, so it leads from a to p and back to a.
    UpAdds(d, x, k, n - k);
    UpAdds(d, a, n - k, k);
    assert Up(d, a, n) == Some(a);
    assert Up(d, p, n - 1) == Some(a);
    MoveFromBelow(d, c, a, p, n - 1);
  }

  // parent_id is a foreign key.
  ghost predicate ParentsExist(c: Chart) {
    forall a :: a in c && c[a].parent.Some? ==> c[a].parent.value in c
  }

  lemma {:induction false} UpStaysInside(c: Chart, a: Id, n: nat)
    requires ParentsExist(c) && a in c && Up(c, a, n).Some?
    ensures Up(c, a, n).value in c
    decreases n
  {
    if n > 0 { UpStaysInside(c, ParentOf(c, a).value, n - 1); }
  }

  lemma {:induction false} SameParentsSameUp(c: Chart, d: Chart, a: Id, n: nat)
    requires forall y :: ParentOf(c, y) == ParentOf(d, y)
    ensures Up(c, a, n) == Up(d, a, n)
    decreases n
  {
    if n > 0 && ParentOf(c, a).Some? { SameParentsSameUp(c, d, ParentOf(c, a).value, n - 1); }
  }

  lemma SameParentsSameForest(c: Chart, d: Chart)
    requires Acyclic(c) && forall y :: ParentOf(c, y) == ParentOf(d, y)
    ensures Acyclic(d)
  {
    forall a: Id, n: nat | n > 0 ensures Up(d, a, n) != Some(a) {
      SameParentsSameUp(c, d, a, n);
    }
  }

  /** A brand-new account has no one below it, so any existing parent keeps the chart a forest. */
  lemma NewAccountKeepsForest(c: Chart, a: Id, x: Account)
    requires Acyclic(c) && ParentsExist(c) && a !in c && (x.parent.Some? ==> x.parent.value in c)
    ensures Acyclic(c[a := x]) && ParentsExist(c[a := x])
  {
    var d := c[a := x.(parent := None)];
    SameParentsSameForest(c, d);
    if x.parent.Some? {
      var p := x.parent.value;
      forall n: nat ensures Up(d, p, n) != Some(a) {
        SameParentsSameUp(c, d, p, n);
        if Up(c, p, n).Some? { UpStaysInside(c, p, n); }
      }
      ParentKeepsForest(d, a, p);
      assert c[a := x] == WithParent(d, a, Some(p));
    } else {
      assert c[a := x] == d;
    }
  }

  lemma RootBreaksCycle(c: Chart, a: Id, x: Id, n: nat)
    requires Acyclic(c) && a in c && n > 0
    ensures Up(WithParent(c, a, None), x, n) != Some(x)
  {
    var d := WithParent(c, a, None);
    var k := SamePath(c, d, a, x, n);
    assert Up(c, x, n) != Some(x);
    if Up(d, x, k) == Some(a) {
      // A path stops at a, so it comes back to where it began only if it began there.
      UpAdds(d, x, k, n - k);
    }
  }

  // Cutting an account loose from its parent keeps the chart a forest.
  lemma RootKeepsForest(c: Chart, a: Id)
    requires Acyclic(c) && a in c
    ensures Acyclic(WithParent(c, a, None))
  {
    var d := WithParent(c, a, None);
    forall x: Id, n: nat | n > 0 ensures Up(d, x, n) != Some(x) {
      RootBreaksCycle(c, a, x, n);
    }
  }

  // Live accounts of the business whose parent is x.
  function Children(c: Chart, b: nat, x: Id): set<Id> {
    set a | a in c && c[a].business == b && !c[a].deleted && c[a].parent == Some(x)
  }

  // The rows of a query, in whatever order the database returns them.
  method Rows(s: set<Id>) returns (r: seq<Id>)
    ensures Elems(r) == s && Distinct(r)
  {
    r := [];
    var rest := s;
    while rest != {}
      invariant rest <= s && Elems(r) == s - rest && Distinct(r)
      decreases rest
    {
      var x :| x in rest;
      PushDistinct(r, x);
      r, rest := r + [x], rest - {x};
    }
  }

  // The descendant walk: what was popped and what is still on the stack.
  ghost predicate Walk(c: Chart, a: Id, p: Id, visited: set<Id>, open: set<Id>) {
    && visited + open <= c.Keys && visited !! open
    && a in visited + open && p !in visited + open
    && (forall x :: x in visited + open ==> Above(c, a, x))
    && (forall x :: x in visited + open && x != a ==> c[x].parent.Some? && c[x].parent.value in visited)
  }

  // Children of popped accounts are on the walk, except those of `last` still to be pushed.
  ghost predicate Found(c: Chart, b: nat, visited: set<Id>, open: set<Id>, last: Id, rest: set<Id>) {
    forall x, w :: x in visited && w in Children(c, b, x) ==> w in visited || w in open || (x == last && w in rest)
  }

  // The rows still to push: children of x, none of them on the walk yet.
  ghost predicate Fresh(c: Chart, b: nat, a: Id, visited: set<Id>, open: set<Id>, x: Id, rest: set<Id>) {
    x in visited && a !in rest && rest <= Children(c, b, x) && rest !! visited + open
  }

  lemma BelowChild(c: Chart, b: nat, a: Id, x: Id, w: Id)
    requires Above(c, a, x) && w in Children(c, b, x)
    ensures Above(c, a, w)
  {
    var n: nat :| Up(c, x, n) == Some(a);
    assert Up(c, w, n + 1) == Some(a);
  }

  // A child of the account being popped is not on the walk yet: it would have come through its only
  // parent, or else it is the account the walk started from, and the chart had a cycle.
  lemma ChildIsNew(c: Chart, b: nat, a: Id, p: Id, visited: set<Id>, open: set<Id>, x: Id, w: Id)
    requires Acyclic(c) && Walk(c, a, p, visited, open) && x in open && w in Children(c, b, x)
    ensures w != a && w !in visited && w !in open
  {
    BelowChild(c, b, a, x, w);
    var n: nat :| Up(c, x, n) == Some(a);
    assert Up(c, w, n + 1) == Some(a);
  }

  lemma PopKeepsWalk(c: Chart, b: nat, a: Id, p: Id, visited: set<Id>, open: set<Id>, last: Id, x: Id)
    requires Acyclic(c) && Walk(c, a, p, visited, open) && x in open && Found(c, b, visited, open, last, {})
    ensures Walk(c, a, p, visited + {x}, open - {x})
    ensures Found(c, b, visited + {x}, open - {x}, x, Children(c, b, x))
    ensures Fresh(c, b, a, visited + {x}, open - {x}, x, Children(c, b, x))
  {
    assert visited + {x} + (open - {x}) == visited + open;
    forall w | w in Children(c, b, x) ensures w != a && w !in visited && w !in open {
      ChildIsNew(c, b, a, p, visited, open, x, w);
    }
  }

  lemma PushKeepsWalk(c: Chart, b: nat, a: Id, p: Id, visited: set<Id>, open: set<Id>, x: Id, w: Id, rest: set<Id>)
    requires Walk(c, a, p, visited, open) && Found(c, b, visited, open, x, rest)
    requires Fresh(c, b, a, visited, open, x, rest) && w in rest
    ensures Above(c, a, w)
    ensures w != p ==> Walk(c, a, p, visited, open + {w})
    ensures Found(c, b, visited, open + {w}, x, rest - {w})
    ensures Fresh(c, b, a, visited, open + {w}, x, rest - {w})
  {
    BelowChild(c, b, a, x, w);
    assert visited + (open + {w}) == visited + open + {w};
  }

  // Whoever leads up to a through live accounts was visited.
  lemma {:induction false} WalkFindsBelow(c: Chart, b: nat, a: Id, visited: set<Id>, x: Id, n: nat)
    requires LiveParents(c) && Live(c, b, x) && Up(c, x, n) == Some(a) && a in visited
    requires forall y, w :: y in visited && w in Children(c, b, y) ==> w in visited
    ensures x in visited
    decreases n
  {
    if n > 0 {
      var y := c[x].parent.value;
      WalkFindsBelow(c, b, a, visited, y, n - 1);
      assert x in Children(c, b, y);
    }
  }

  lemma NothingFound(c: Chart, b: nat, a: Id, p: Id, visited: set<Id>, last: Id)
    requires LiveParents(c) && Live(c, b, p)
    requires Walk(c, a, p, visited, {}) && Found(c, b, visited, {}, last, {})
    ensures !Above(c, a, p)
  {
    assert a in visited;
    if Above(c, a, p) {
      var n: nat :| Up(c, p, n) == Some(a);
      WalkFindsBelow(c, b, a, visited, p, n);
    }
  }

  // One query result: every child is compared with p and then pushed.
  method PushChildren(c: Chart, b: nat, a: Id, p: Id, toVisit: seq<Id>, rows: seq<Id>, ghost visited: set<Id>,
                      ghost x: Id)
    returns (ok: bool, stack: seq<Id>)
    requires Distinct(toVisit) && Walk(c, a, p, visited, Elems(toVisit)) && Distinct(rows)
    requires Found(c, b, visited, Elems(toVisit), x, Elems(rows)) &&
      Fresh(c, b, a, visited, Elems(toVisit), x, Elems(rows))
    ensures ok ==> Distinct(stack) && Walk(c, a, p, visited, Elems(stack)) && Found(c, b, visited, Elems(stack), x, {})
    ensures !ok ==> Above(c, a, p)
  {
    stack := toVisit;
    ghost var open, rest := Elems(toVisit), Elems(rows);
    var i := 0;
    while i < |rows|
      invariant 0 <= i <= |rows| && Distinct(stack) && open == Elems(stack) && rest == Elems(rows[i..])
      invariant Walk(c, a, p, visited, open)
      invariant Found(c, b, visited, open, x, rest) && Fresh(c, b, a, visited, open, x, rest)
    {
      var w := rows[i];
      RestOf(rows, i);
      PushKeepsWalk(c, b, a, p, visited, open, x, w, rest);
      if w == p {
        return false, stack;
      }
      PushDistinct(stack, w);
      stack, open, rest := stack + [w], open + {w}, rest - {w};
      i := i + 1;
    }
    assert rest == {};
    return true, stack;
  }

  lemma RestOf(rows: seq<Id>, i: nat)
    requires Distinct(rows) && i < |rows|
    ensures rows[i] in Elems(rows[i..]) && Elems(rows[i + 1..]) == Elems(rows[i..]) - {rows[i]}
  {
    assert rows[i..] == [rows[i]] + rows[i + 1..];
  }

  lemma PushDistinct(stack: seq<Id>, w: Id)
    requires Distinct(stack) && w !in Elems(stack)
    ensures Distinct(stack + [w]) && Elems(stack + [w]) == Elems(stack) + {w}
  {
    forall i | 0 <= i < |stack| ensures stack[i] != w { assert stack[i] in Elems(stack); }
  }

  lemma PopDistinct(stack: seq<Id>)
    requires Distinct(stack) && stack != []
    ensures var n := |stack| - 1;
      Distinct(stack[..n]) && stack[n] in Elems(stack) && Elems(stack[..n]) == Elems(stack) - {stack[n]}
  {
    assert stack == stack[..|stack| - 1] + [stack[|stack| - 1]];
  }

  /**
   * _assert_no_parent_cycle(): walks the live descendants of a with a stack and no visited set. It
   * terminates, and refuses p exactly when making p the parent of a would create a cycle.
   */
  method NoParentCycle(c: Chart, b: nat, a: Id, p: Id) returns (ok: bool)
    requires Acyclic(c) && LiveParents(c) && Live(c, b, a) && Live(c, b, p) && p != a
    ensures ok <==> Acyclic(WithParent(c, a, Some(p)))
  {
    ParentKeepsForest(c, a, p);
    var toVisit := [a];
    ghost var visited: set<Id>, last := {}, a;
    assert Up(c, a, 0) == Some(a);
    while toVisit != []
      invariant Distinct(toVisit) && Walk(c, a, p, visited, Elems(toVisit)) &&
        Found(c, b, visited, Elems(toVisit), last, {})
      decreases c.Keys - visited
    {
      PopDistinct(toVisit);
      var x := toVisit[|toVisit| - 1];
      PopKeepsWalk(c, b, a, p, visited, Elems(toVisit), last, x);
      toVisit := toVisit[..|toVisit| - 1];
      visited, last := visited + {x}, x;
      var rows := Rows(Children(c, b, x));
      var ok1;
      ok1, toVisit := PushChildren(c, b, a, p, toVisit, rows, visited, x);
      if !ok1 {
        return false;
      }
    }
    assert Elems([]) == {};
    NothingFound(c, b, a, p, visited, last);
    return true;
  }

  // A row of the listing the tree is built from.
  datatype Listed = Listed(id: Id, parent: Option<Id>)

  function IdSet(accounts: seq<Listed>): set<Id> { set x | x in accounts :: x.id }

  ghost predicate DistinctIds(accounts: seq<Listed>) {
    forall i, j :: 0 <= i < j < |accounts| ==> accounts[i].id != accounts[j].id
  }

  // The listed accounts naming p as parent, in listing order.
  function ChildrenIn(accounts: seq<Listed>, p: Id): seq<Id> {
    if accounts == [] then []
    else
      var x := accounts[|accounts| - 1];
      ChildrenIn(accounts[..|accounts| - 1], p) + if x.parent == Some(p) then [x.id] else []
  }

  // The accounts whose parent is not listed, in listing order.
  function RootsIn(accounts: seq<Listed>, listed: set<Id>): seq<Id> {
    if accounts == [] then []
    else
      var x := accounts[|accounts| - 1];
      RootsIn(accounts[..|accounts| - 1], listed) + if IsRoot(x, listed) then [x.id] else []
  }

  // One node per account, with no children yet.
  method EmptyNodes(accounts: seq<Listed>) returns (children: map<Id, seq<Id>>)
    ensures children.Keys == IdSet(accounts)
    ensures forall p :: p in children ==> children[p] == []
  {
    children := map[];
    assert accounts[..0] == [];
    for i := 0 to |accounts|
      invariant children.Keys == IdSet(accounts[..i])
      invariant forall p :: p in children ==> children[p] == []
    {
      assert accounts[..i + 1] == accounts[..i] + [accounts[i]];
      children := children[accounts[i].id := []];
    }
    assert accounts[..|accounts|] == accounts;
  }

  /**
   * _build_tree(): children are exactly the listed accounts naming the node, roots those whose parent is not
   * listed.
   */
  method BuildTree(accounts: seq<Listed>) returns (roots: seq<Id>, children: map<Id, seq<Id>>)
    ensures children.Keys == IdSet(accounts)
    ensures forall p :: p in children ==> children[p] == ChildrenIn(accounts, p)
    ensures roots == RootsIn(accounts, IdSet(accounts))
  {
    children := EmptyNodes(accounts);
    roots := [];
    ghost var listed := children.Keys;
    for i := 0 to |accounts|
      invariant children.Keys == listed
      invariant forall p :: p in children ==> children[p] == ChildrenIn(accounts[..i], p)
      invariant roots == RootsIn(accounts[..i], listed)
    {
      assert accounts[..i + 1][..i] == accounts[..i];
      var x := accounts[i];
      if x.parent.Some? && x.parent.value in children {
        children := children[x.parent.value := children[x.parent.value] + [x.id]];
      } else {
        roots := roots + [x.id];
      }
    }
    assert accounts[..|accounts|] == accounts;
  }

  function Times(s: seq<Id>, x: Id): nat {
    if s == [] then 0 else Times(s[..|s| - 1], x) + if s[|s| - 1] == x then 1 else 0
  }

  lemma TimesOneMore(s: seq<Id>, y: Id, x: Id)
    ensures Times(s + [y], x) == Times(s, x) + if y == x then 1 else 0
  {
    assert (s + [y])[..|s|] == s;
  }

  predicate IsRoot(r: Listed, listed: set<Id>) { r.parent.None? || r.parent.value !in listed }

  lemma {:induction false} TimesAmongChildren(accounts: seq<Listed>, p: Id, x: Id, i: nat)
    requires DistinctIds(accounts) && i <= |accounts|
    requires if i < |accounts| then accounts[i].id == x else forall j :: 0 <= j < |accounts| ==> accounts[j].id != x
    ensures Times(ChildrenIn(accounts, p), x) == if i < |accounts| && accounts[i].parent == Some(p) then 1 else 0
    decreases |accounts|
  {
    if accounts != [] {
      var front, r := accounts[..|accounts| - 1], accounts[|accounts| - 1];
      LastIsNew(accounts);
      TimesAmongChildren(front, p, x, if i < |front| then i else |front|);
      TimesOneMore(ChildrenIn(front, p), r.id, x);
      assert ChildrenIn(front, p) + [] == ChildrenIn(front, p);
    }
  }

  lemma {:induction false} TimesAmongRoots(accounts: seq<Listed>, listed: set<Id>, x: Id, i: nat)
    requires DistinctIds(accounts) && i <= |accounts|
    requires if i < |accounts| then accounts[i].id == x else forall j :: 0 <= j < |accounts| ==> accounts[j].id != x
    ensures Times(RootsIn(accounts, listed), x) == if i < |accounts| && IsRoot(accounts[i], listed) then 1 else 0
    decreases |accounts|
  {
    if accounts != [] {
      var front, r := accounts[..|accounts| - 1], accounts[|accounts| - 1];
      LastIsNew(accounts);
      TimesAmongRoots(front, listed, x, if i < |front| then i else |front|);
      TimesOneMore(RootsIn(front, listed), r.id, x);
      assert RootsIn(front, listed) + [] == RootsIn(front, listed);
    }
  }

  /** Every account is placed exactly once: among the roots, or under its own parent and no other node. */
  lemma PlacedOnce(accounts: seq<Listed>, i: nat, p: Id)
    requires DistinctIds(accounts) && i < |accounts|
    ensures Times(RootsIn(accounts, IdSet(accounts)), accounts[i].id) ==
      if exists x :: x in accounts && accounts[i].parent == Some(x.id) then 0 else 1
    ensures Times(ChildrenIn(accounts, p), accounts[i].id) == if accounts[i].parent == Some(p) then 1 else 0
  {
    TimesAmongRoots(accounts, IdSet(accounts), accounts[i].id, i);
    TimesAmongChildren(accounts, p, accounts[i].id, i);
  }

  /** Siblings come in the order of the listing. */
  lemma {:induction false} SiblingsInOrder(accounts: seq<Listed>, p: Id, i: nat, j: nat) returns (m: nat, n: nat)
    requires i < j < |accounts| && accounts[i].parent == Some(p) && accounts[j].parent == Some(p)
    ensures m < n < |ChildrenIn(accounts, p)|
    ensures ChildrenIn(accounts, p)[m] == accounts[i].id && ChildrenIn(accounts, p)[n] == accounts[j].id
    decreases |accounts|
  {
    var front := accounts[..|accounts| - 1];
    if j < |front| {
      m, n := SiblingsInOrder(front, p, i, j);
    } else {
      ListedUnder(front, {p}, i);
      m :| 0 <= m < |ChildrenIn(front, p)| && ChildrenIn(front, p)[m] == accounts[i].id;
      n := |ChildrenIn(front, p)|;
    }
  }

  /** And so do the roots. */
  lemma {:induction false} RootsInOrder(accounts: seq<Listed>, listed: set<Id>, i: nat, j: nat) returns (m: nat, n: nat)
    requires i < j < |accounts|
    requires accounts[i].parent.None? || accounts[i].parent.value !in listed
    requires accounts[j].parent.None? || accounts[j].parent.value !in listed
    ensures m < n < |RootsIn(accounts, listed)|
    ensures RootsIn(accounts, listed)[m] == accounts[i].id && RootsIn(accounts, listed)[n] == accounts[j].id
    decreases |accounts|
  {
    var front := accounts[..|accounts| - 1];
    if j < |front| {
      m, n := RootsInOrder(front, listed, i, j);
    } else {
      ListedUnder(front, listed, i);
      m :| 0 <= m < |RootsIn(front, listed)| && RootsIn(front, listed)[m] == accounts[i].id;
      n := |RootsIn(front, listed)|;
    }
  }

  lemma LastIsNew(accounts: seq<Listed>)
    requires DistinctIds(accounts) && accounts != []
    ensures var front, last := accounts[..|accounts| - 1], accounts[|accounts| - 1];
      DistinctIds(front) && forall j :: 0 <= j < |front| ==> front[j] == accounts[j] && front[j].id != last.id
  {
  }

  // x hangs n levels below a root of the tree.
  ghost predicate Hangs(accounts: seq<Listed>, x: Id, n: nat)
    decreases n
  {
    if n == 0 then x in RootsIn(accounts, IdSet(accounts))
    else exists p :: p in IdSet(accounts) && x in ChildrenIn(accounts, p) && Hangs(accounts, p, n - 1)
  }

  ghost function Ancestors(c: Chart, x: Id): set<Id> { set y | y in c && Above(c, y, x) }

  lemma {:induction false} ListedUnder(accounts: seq<Listed>, listed: set<Id>, i: nat)
    requires i < |accounts|
    ensures var x := accounts[i];
      if x.parent.Some? && x.parent.value in listed then x.id in ChildrenIn(accounts, x.parent.value)
      else x.id in RootsIn(accounts, listed)
    decreases |accounts|
  {
    if i < |accounts| - 1 { ListedUnder(accounts[..|accounts| - 1], listed, i); }
  }

  /** No account of any list drawn from a forest is lost: each hangs below some root of its tree. */
  lemma {:induction false} EveryAccountHangs(c: Chart, accounts: seq<Listed>, i: nat) returns (n: nat)
    requires Acyclic(c) && i < |accounts|
    requires forall x :: x in accounts ==> x.id in c && c[x.id].parent == x.parent
    ensures Hangs(accounts, accounts[i].id, n)
    decreases Ancestors(c, accounts[i].id)
  {
    var x := accounts[i];
    assert x in accounts;
    ListedUnder(accounts, IdSet(accounts), i);
    if x.parent.Some? && x.parent.value in IdSet(accounts) {
      var p := x.parent.value;
      var q :| q in accounts && q.id == p;
      var j :| 0 <= j < |accounts| && accounts[j] == q;
      FewerAncestors(c, x.id, p);
      n := EveryAccountHangs(c, accounts, j);
      n := n + 1;
    } else {
      n := 0;
    }
  }

  lemma FewerAncestors(c: Chart, x: Id, p: Id)
    requires Acyclic(c) && x in c && c[x].parent == Some(p)
    ensures Ancestors(c, p) < Ancestors(c, x)
  {
    forall y | y in Ancestors(c, p) ensures y in Ancestors(c, x) {
      var n: nat :| Up(c, p, n) == Some(y);
      assert Up(c, x, n + 1) == Some(y);
    }
    assert Up(c, x, 0) == Some(x);
    assert x in Ancestors(c, x);
    forall n: nat ensures Up(c, p, n) != Some(x) {
      assert Up(c, x, n + 1) == Up(c, p, n);
    }
  }
}
