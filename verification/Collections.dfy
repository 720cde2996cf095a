/** Sequences and sets of numbers, as several modules need them. */
module Collections {
  ghost function Elems(s: seq<nat>): set<nat> { set x | x in s }

  ghost predicate Distinct(s: seq<nat>) { forall i, j :: 0 <= i < j < |s| ==> s[i] != s[j] }

  function Min(a: nat, b: nat): nat { if a <= b then a else b }

  // The loop of min() over a set.
  method Least(s: set<nat>) returns (m: nat)
    requires s != {}
    ensures m in s && forall x :: x in s ==> m <= x
  {
    m :| m in s;
    var rest := s - {m};
    while rest != {}
      invariant m in s && rest <= s
      invariant forall x :: x in s ==> x in rest || m <= x
      decreases rest
    {
      var x :| x in rest;
      if x < m { m := x; }
      rest := rest - {x};
    }
  }

  // lo, lo + 1, ..., hi - 1
  function Range(lo: nat, hi: nat): seq<nat>
    decreases hi
  {
    if hi <= lo then [] else Range(lo, hi - 1) + [hi - 1]
  }

  lemma {:induction false} RangeJoins(lo: nat, mid: nat, hi: nat)
    requires lo <= mid <= hi
    ensures Range(lo, mid) + Range(mid, hi) == Range(lo, hi)
    decreases hi
  {
    if mid < hi { RangeJoins(lo, mid, hi - 1); }
  }

  lemma {:induction false} RangeMembers(lo: nat, hi: nat)
    ensures forall n :: n in Range(lo, hi) <==> lo <= n < hi
    decreases hi
  {
    if lo < hi { RangeMembers(lo, hi - 1); }
  }
}
