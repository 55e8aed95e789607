/** Counting, majorities and the sorted median, as the election and commit rules of
    `src/raft1/raft.go` use them. */
module Quorum {

  /** `q` names servers out of `0 .. n-1`. */
  predicate Servers(n: nat, q: set<nat>) {
    forall i :: i in q ==> i < n
  }

  /** More than half of `n` servers. */
  predicate Majority(n: nat, q: set<nat>) {
    Servers(n, q) && 2 * |q| > n
  }

  lemma {:induction false} ServersSize(n: nat, q: set<nat>)
    requires Servers(n, q)
    ensures |q| <= n
  {
    if n == 0 {
      assert q == {};
    } else {
      ServersSize(n - 1, q - {n - 1});
    }
  }

  lemma SubsetSize<T>(a: set<T>, b: set<T>)
    requires a <= b
    ensures |a| <= |b|
  {
    assert b == a + (b - a);
  }

  lemma LargerMajority(n: nat, q: set<nat>, r: set<nat>)
    requires Majority(n, q) && q <= r && Servers(n, r)
    ensures Majority(n, r)
  {
    SubsetSize(q, r);
  }

  /** Two majorities of the same servers share a member. */
  lemma MajoritiesMeet(n: nat, q: set<nat>, r: set<nat>) returns (common: nat)
    requires Majority(n, q) && Majority(n, r)
    ensures common in q && common in r
  {
    if q * r == {} {
      ServersSize(n, q + r);
      assert false;
    }
    common :| common in q * r;
  }

  /** How many of the flags are set. */
  function CountTrue(flags: seq<bool>): nat {
    if flags == [] then 0
    else CountTrue(flags[..|flags| - 1]) + if flags[|flags| - 1] then 1 else 0
  }

  function TrueAt(flags: seq<bool>): set<nat> {
    set i: nat | i < |flags| && flags[i]
  }

  lemma {:induction false} CountTrueIsSize(flags: seq<bool>)
    ensures |TrueAt(flags)| == CountTrue(flags)
  {
    if flags != [] {
      var last := |flags| - 1;
      CountTrueIsSize(flags[..last]);
      assert TrueAt(flags) == TrueAt(flags[..last]) + if flags[last] then {last} else {};
    }
  }

  // ----- the sorted median of updateCommitIndex -----

  function Insert(x: nat, s: seq<nat>): seq<nat> {
    if s == [] || x <= s[0] then [x] + s else [s[0]] + Insert(x, s[1..])
  }

  /** `slices.Sort` */
  function Sort(s: seq<nat>): seq<nat> {
    if s == [] then [] else Insert(s[0], Sort(s[1..]))
  }

  predicate Ascending(s: seq<nat>) {
    forall i, j :: 0 <= i < j < |s| ==> s[i] <= s[j]
  }

  lemma {:induction false} InsertAscending(x: nat, s: seq<nat>)
    requires Ascending(s)
    ensures Ascending(Insert(x, s)) && |Insert(x, s)| == |s| + 1
    ensures forall y :: y in Insert(x, s) ==> y == x || y in s
  {
    if s != [] && x > s[0] {
      InsertAscending(x, s[1..]);
      var rest := Insert(x, s[1..]);
      forall i | 0 <= i < |rest|
        ensures s[0] <= rest[i]
      {
        assert rest[i] in rest;
      }
    }
  }

  lemma {:induction false} SortAscending(s: seq<nat>)
    ensures Ascending(Sort(s)) && |Sort(s)| == |s|
  {
    if s != [] {
      SortAscending(s[1..]);
      InsertAscending(s[0], Sort(s[1..]));
    }
  }

  /** How many elements are at least `c`. */
  function CountGe(s: seq<nat>, c: nat): nat {
    if s == [] then 0 else (if s[0] >= c then 1 else 0) + CountGe(s[1..], c)
  }

  lemma {:induction false} CountGeInsert(x: nat, s: seq<nat>, c: nat)
    ensures CountGe(Insert(x, s), c) == CountGe(s, c) + if x >= c then 1 else 0
  {
    if s == [] || x <= s[0] {
      assert ([x] + s)[1..] == s;
    } else {
      CountGeInsert(x, s[1..], c);
      assert ([s[0]] + Insert(x, s[1..]))[1..] == Insert(x, s[1..]);
    }
  }

  lemma {:induction false} CountGeSort(s: seq<nat>, c: nat)
    ensures CountGe(Sort(s), c) == CountGe(s, c)
  {
    if s != [] {
      CountGeSort(s[1..], c);
      CountGeInsert(s[0], Sort(s[1..]), c);
    }
  }

  /** In an ascending sequence the elements at least `c` are a suffix. */
  lemma {:induction false} CountGeAscending(s: seq<nat>, k: nat, c: nat)
    requires Ascending(s) && k < |s|
    ensures s[k] >= c ==> CountGe(s, c) >= |s| - k
    ensures s[k] < c ==> CountGe(s, c) <= |s| - k - 1
  {
    if k == 0 {
      if s[0] >= c { CountGeAll(s, c); } else { CountGeBound(s[1..], c); }
    } else {
      CountGeAscending(s[1..], k - 1, c);
    }
  }

  lemma {:induction false} CountGeAll(s: seq<nat>, c: nat)
    requires forall i :: 0 <= i < |s| ==> s[i] >= c
    ensures CountGe(s, c) == |s|
  {
    if s != [] { CountGeAll(s[1..], c); }
  }

  lemma {:induction false} CountGeBound(s: seq<nat>, c: nat)
    ensures CountGe(s, c) <= |s|
  {
    if s != [] { CountGeBound(s[1..], c); }
  }

  /** The positions whose value is at least `c`. */
  function AtLeast(s: seq<nat>, c: nat): set<nat> {
    set i: nat | i < |s| && s[i] >= c
  }

  lemma {:induction false} CountGeIsSize(s: seq<nat>, c: nat)
    ensures |AtLeast(s, c)| == CountGe(s, c)
  {
    if s != [] {
      CountGeIsSize(s[1..], c);
      var rest := AtLeast(s[1..], c);
      var moved := set i | i in rest :: i + 1;
      ShiftSize(rest, moved);
      assert AtLeast(s, c) == moved + if s[0] >= c then {0} else {} by {
        forall i: nat | i in AtLeast(s, c) && i > 0
          ensures i in moved
        {
          assert s[1..][i - 1] == s[i];
          assert i - 1 in rest;
        }
      }
    }
  }

  lemma {:induction false} ShiftSize(a: set<nat>, b: set<nat>)
    requires b == set i | i in a :: i + 1
    ensures |a| == |b|
  {
    if a != {} {
      var x :| x in a;
      assert forall y :: y in b ==> y >= 1 && y - 1 in a;
      var a', b' := a - {x}, b - {x + 1};
      assert forall y :: y in b' ==> y - 1 in a';
      assert b' == set i | i in a' :: i + 1;
      ShiftSize(a', b');
      assert x + 1 in b;
    }
  }

  /** `tmp[(len(tmp)-1)/2]` of the sorted copy. */
  function Median(s: seq<nat>): nat
    requires s != []
  {
    SortAscending(s);
    Sort(s)[(|s| - 1) / 2]
  }

  /** A value is at most the median exactly when a majority of the elements reach it. */
  lemma MedianIsMajority(s: seq<nat>, c: nat)
    requires s != []
    ensures c <= Median(s) <==> Majority(|s|, AtLeast(s, c))
  {
    SortAscending(s);
    CountGeSort(s, c);
    CountGeAscending(Sort(s), (|s| - 1) / 2, c);
    CountGeIsSize(s, c);
  }

  /** The median is one of the elements. */
  lemma MedianIsElement(s: seq<nat>)
    requires s != []
    ensures Median(s) in s
  {
    SortAscending(s);
    SortMembers(s, Sort(s)[(|s| - 1) / 2]);
  }

  lemma {:induction false} SortMembers(s: seq<nat>, x: nat)
    requires x in Sort(s)
    ensures x in s
  {
    if s != [] {
      SortAscending(s[1..]);
      InsertAscending(s[0], Sort(s[1..]));
      if x != s[0] { SortMembers(s[1..], x); }
    }
  }
}
