/** Shard rebalancing of `src/shardkv1/shardcfg/shardcfg.go`: orphaned shards go to the least loaded
    group, then shards move one by one from the most to the least loaded group. */
module Rebalance {

  type Gid = int

  // ----- sums over the groups -----

  predicate Distinct(gs: seq<Gid>) {
    forall i, j :: 0 <= i < j < |gs| ==> gs[i] != gs[j]
  }

  ghost function Sum(gs: seq<Gid>, f: Gid -> int): int {
    if gs == [] then 0 else f(gs[0]) + Sum(gs[1..], f)
  }

  lemma {:induction false} SumSame(gs: seq<Gid>, f: Gid -> int, f': Gid -> int)
    requires forall g :: g in gs ==> f(g) == f'(g)
    ensures Sum(gs, f) == Sum(gs, f')
  {
    if gs != [] {
      var g := gs[0];
      assert g in gs && f(g) == f'(g);
      SumSame(gs[1..], f, f');
    }
  }

  lemma {:induction false} SumChange(gs: seq<Gid>, f: Gid -> int, f': Gid -> int, x: Gid, d: int)
    requires Distinct(gs) && x in gs && f'(x) == f(x) + d
    requires forall g :: g in gs && g != x ==> f(g) == f'(g)
    ensures Sum(gs, f') == Sum(gs, f) + d
  {
    if gs[0] == x {
      assert x !in gs[1..];
      SumSame(gs[1..], f, f');
    } else {
      SumChange(gs[1..], f, f', x, d);
    }
  }

  lemma {:induction false} SumAtMost(gs: seq<Gid>, f: Gid -> int, f': Gid -> int)
    requires forall g :: g in gs ==> f(g) <= f'(g)
    ensures Sum(gs, f) <= Sum(gs, f')
  {
    if gs != [] {
      var g := gs[0];
      assert g in gs && f(g) <= f'(g);
      SumAtMost(gs[1..], f, f');
    }
  }

  lemma {:induction false} SumOfConstant(gs: seq<Gid>, v: int)
    ensures Sum(gs, _ => v) == |gs| * v
  {
    if gs != [] { SumOfConstant(gs[1..], v); }
  }

  /** A sum of values none below `lo`, one of them `lo + d`. */
  lemma SumAbove(gs: seq<Gid>, f: Gid -> int, lo: int, x: Gid, d: nat)
    requires Distinct(gs) && x in gs && f(x) >= lo + d && forall g :: g in gs ==> lo <= f(g)
    ensures Sum(gs, f) >= |gs| * lo + d
  {
    SumOfConstant(gs, lo);
    SumChange(gs, _ => lo, g => if g == x then lo + d else lo, x, d);
    SumAtMost(gs, g => if g == x then lo + d else lo, f);
  }

  lemma SumBelow(gs: seq<Gid>, f: Gid -> int, hi: int, x: Gid, d: nat)
    requires Distinct(gs) && x in gs && f(x) <= hi - d && forall g :: g in gs ==> f(g) <= hi
    ensures Sum(gs, f) <= |gs| * hi - d
  {
    SumOfConstant(gs, hi);
    SumChange(gs, _ => hi, g => if g == x then hi - d else hi, x, 0 - d);
    SumAtMost(gs, f, g => if g == x then hi - d else hi);
  }

  lemma Inhabited(groups: set<Gid>)
    ensures groups == {} || exists g :: g in groups
  {
    if forall g :: g !in groups { assert groups == {}; }
  }

  ghost predicate Lists(gs: seq<Gid>, groups: set<Gid>) {
    |gs| == |groups| && Distinct(gs) && forall g :: g in gs <==> g in groups
  }

  lemma {:induction false} ListExists(groups: set<Gid>)
    ensures exists gs :: Lists(gs, groups)
    decreases |groups|
  {
    Inhabited(groups);
    if groups == {} {
      assert Lists([], groups);
    } else {
      var g :| g in groups;
      ListExists(groups - {g});
      var rest :| Lists(rest, groups - {g});
      assert Lists([g] + rest, groups);
    }
  }

  /** The groups in some order. */
  ghost function InOrder(groups: set<Gid>): (gs: seq<Gid>)
    ensures Lists(gs, groups)
  {
    ListExists(groups);
    var gs :| Lists(gs, groups);
    gs
  }

  // ----- assignments of shards to groups -----

  function Count(shards: seq<Gid>, g: Gid): nat {
    if shards == [] then 0
    else Count(shards[..|shards| - 1], g) + (if shards[|shards| - 1] == g then 1 else 0)
  }

  function Orphans(shards: seq<Gid>, groups: set<Gid>): nat {
    if shards == [] then 0
    else Orphans(shards[..|shards| - 1], groups) + (if shards[|shards| - 1] in groups then 0 else 1)
  }

  /** The number of shards two assignments place differently. */
  function Relocated(a: seq<Gid>, b: seq<Gid>): nat
    requires |a| == |b|
  {
    if a == [] then 0
    else Relocated(a[..|a| - 1], b[..|a| - 1]) + (if a[|a| - 1] == b[|a| - 1] then 0 else 1)
  }

  ghost predicate Placed(shards: seq<Gid>, groups: set<Gid>) {
    forall g :: g in shards ==> g in groups
  }

  /** Every shard is on a member, and no group has two shards more than another. */
  ghost predicate Balanced(shards: seq<Gid>, groups: set<Gid>) {
    && Placed(shards, groups)
    && forall g, h :: g in groups && h in groups ==> Count(shards, g) <= Count(shards, h) + 1
  }

  /** The least loaded group, the smallest of several. */
  predicate IsLeast(shards: seq<Gid>, groups: set<Gid>, g: Gid) {
    && g in groups
    && forall h :: h in groups ==> Count(shards, g) < Count(shards, h) || (Count(shards, g) == Count(shards, h) && g <= h)
  }

  /** The most loaded group, the smallest of several. */
  predicate IsMost(shards: seq<Gid>, groups: set<Gid>, g: Gid) {
    && g in groups
    && forall h :: h in groups ==> Count(shards, g) > Count(shards, h) || (Count(shards, g) == Count(shards, h) && g <= h)
  }

  lemma {:induction false} CountUpdate(shards: seq<Gid>, i: nat, y: Gid, g: Gid)
    requires i < |shards|
    ensures Count(shards[i := y], g)
         == Count(shards, g) - (if shards[i] == g then 1 else 0) + (if y == g then 1 else 0)
  {
    var n := |shards| - 1;
    if i < n {
      CountUpdate(shards[..n], i, y, g);
      assert shards[i := y][..n] == shards[..n][i := y];
    } else {
      assert shards[i := y][..n] == shards[..n];
    }
  }

  lemma {:induction false} OrphansUpdate(shards: seq<Gid>, groups: set<Gid>, i: nat, y: Gid)
    requires i < |shards|
    ensures Orphans(shards[i := y], groups)
         == Orphans(shards, groups) - (if shards[i] in groups then 0 else 1) + (if y in groups then 0 else 1)
  {
    var n := |shards| - 1;
    if i < n {
      OrphansUpdate(shards[..n], groups, i, y);
      assert shards[i := y][..n] == shards[..n][i := y];
    } else {
      assert shards[i := y][..n] == shards[..n];
    }
  }

  lemma {:induction false} NoOrphans(shards: seq<Gid>, groups: set<Gid>)
    ensures Orphans(shards, groups) == 0 <==> Placed(shards, groups)
  {
    if shards != [] {
      var n := |shards| - 1;
      NoOrphans(shards[..n], groups);
      assert shards == shards[..n] + [shards[n]];
      assert shards[n] in shards && forall g :: g in shards <==> g in shards[..n] || g == shards[n];
    }
  }

  /** Every shard is counted at its group or as an orphan. */
  lemma {:induction false} CountsAddUp(shards: seq<Gid>, groups: set<Gid>)
    ensures Sum(InOrder(groups), g => Count(shards, g)) + Orphans(shards, groups) == |shards|
  {
    var gs := InOrder(groups);
    if shards == [] {
      SumOfConstant(gs, 0);
      SumSame(gs, g => Count(shards, g), _ => 0);
    } else {
      var n := |shards| - 1;
      var rest, x := shards[..n], shards[n];
      CountsAddUp(rest, groups);
      if x in groups {
        SumChange(gs, g => Count(rest, g), g => Count(shards, g), x, 1);
      } else {
        SumSame(gs, g => Count(rest, g), g => Count(shards, g));
      }
    }
  }

  lemma {:induction false} LeastExists(shards: seq<Gid>, groups: set<Gid>)
    requires groups != {}
    ensures exists g :: IsLeast(shards, groups, g)
    ensures exists g :: IsMost(shards, groups, g)
    decreases |groups|
  {
    Inhabited(groups);
    var x :| x in groups;
    if groups == {x} {
      assert IsLeast(shards, groups, x) && IsMost(shards, groups, x);
    } else {
      var rest := groups - {x};
      assert groups == rest + {x} && rest != {};
      LeastExists(shards, rest);
      var l :| IsLeast(shards, rest, l);
      var m :| IsMost(shards, rest, m);
      assert IsLeast(shards, groups, l) || IsLeast(shards, groups, x);
      assert IsMost(shards, groups, m) || IsMost(shards, groups, x);
    }
  }

  ghost function Least(shards: seq<Gid>, groups: set<Gid>): (g: Gid)
    requires groups != {}
    ensures IsLeast(shards, groups, g)
  {
    LeastExists(shards, groups);
    var g :| IsLeast(shards, groups, g);
    g
  }

  ghost function Most(shards: seq<Gid>, groups: set<Gid>): (g: Gid)
    requires groups != {}
    ensures IsMost(shards, groups, g)
  {
    LeastExists(shards, groups);
    var g :| IsMost(shards, groups, g);
    g
  }

  // ----- how far an assignment is from balance -----

  /** `n` divided by `k`, rounded down: how many whole shares of `k` there are in `n`. */
  function Floor(n: nat, k: nat): nat
    requires k > 0
  {
    if n < k then 0 else 1 + Floor(n - k, k)
  }

  /** The same, rounded up. */
  function Ceiling(n: nat, k: nat): nat
    requires k > 0
  {
    if n == 0 then 0 else 1 + Floor(n - 1, k)
  }

  function Above(v: int, c: int): nat {
    if v > c then v - c else 0
  }

  /** Shards above the ceiling, over all groups. */
  ghost function Excess(shards: seq<Gid>, groups: set<Gid>): int
    requires groups != {}
  {
    var c := Ceiling(|shards|, |groups|);
    Sum(InOrder(groups), g => Above(Count(shards, g), c))
  }

  /** Shards missing below the floor, over all groups. */
  ghost function Deficit(shards: seq<Gid>, groups: set<Gid>): int
    requires groups != {}
  {
    var f := Floor(|shards|, |groups|);
    Sum(InOrder(groups), g => Above(f, Count(shards, g)))
  }

  function Max(a: int, b: int): int {
    if a < b then b else a
  }

  /** The relocations that balance needs. */
  ghost function Need(shards: seq<Gid>, groups: set<Gid>): int
    requires groups != {}
  {
    Max(Orphans(shards, groups) + Excess(shards, groups), Deficit(shards, groups))
  }

  lemma {:induction false} FloorBounds(n: nat, k: nat)
    requires k > 0
    ensures k * Floor(n, k) <= n < k * (Floor(n, k) + 1)
    decreases n
  {
    if n >= k { FloorBounds(n - k, k); }
  }

  lemma FloorCeiling(n: nat, k: nat)
    requires k > 0
    ensures k * Floor(n, k) <= n < k * (Floor(n, k) + 1)
    ensures k * (Ceiling(n, k) - 1) < n <= k * Ceiling(n, k) || n == Ceiling(n, k) == 0
  {
    FloorBounds(n, k);
    if n > 0 { FloorBounds(n - 1, k); }
  }

  lemma OneApart(n: nat, k: nat)
    requires k > 0
    ensures Floor(n, k) <= Ceiling(n, k) <= Floor(n, k) + 1
  {
    FloorCeiling(n, k);
    Cancel(k, Floor(n, k), Ceiling(n, k) + 1);
    Cancel(k, Ceiling(n, k) - 1, Floor(n, k) + 1);
  }

  lemma Cancel(k: int, a: int, b: int)
    requires k > 0
    ensures k * a < k * b <==> a < b
  {
    if a < b { assert k * a < k * b; } else { assert k * a >= k * b; }
  }

  /** If a group has room to gain, it stays within the ceiling. */
  lemma LeastBelowCeiling(shards: seq<Gid>, groups: set<Gid>)
    requires groups != {}
    requires Orphans(shards, groups) > 0 || Count(shards, Least(shards, groups)) < Count(shards, Most(shards, groups))
    ensures Count(shards, Least(shards, groups)) < Ceiling(|shards|, |groups|)
  {
    var gs, l, m, c := InOrder(groups), Least(shards, groups), Most(shards, groups), Ceiling(|shards|, |groups|);
    CountsAddUp(shards, groups);
    SumAbove(gs, g => Count(shards, g), Count(shards, l), m, Count(shards, m) - Count(shards, l));
    FloorCeiling(|shards|, |groups|);
    Cancel(|groups|, Count(shards, l), c);
  }

  lemma MostAboveFloor(shards: seq<Gid>, groups: set<Gid>)
    requires groups != {} && Placed(shards, groups)
    requires Count(shards, Least(shards, groups)) < Count(shards, Most(shards, groups))
    ensures Floor(|shards|, |groups|) < Count(shards, Most(shards, groups))
  {
    var gs, l, m, f := InOrder(groups), Least(shards, groups), Most(shards, groups), Floor(|shards|, |groups|);
    CountsAddUp(shards, groups);
    NoOrphans(shards, groups);
    SumBelow(gs, g => Count(shards, g), Count(shards, m), l, Count(shards, m) - Count(shards, l));
    FloorCeiling(|shards|, |groups|);
    Cancel(|groups|, f, Count(shards, m));
  }

  /** There is excess exactly when the most loaded group is above the ceiling. */
  lemma ExcessSign(shards: seq<Gid>, groups: set<Gid>)
    requires groups != {}
    ensures Excess(shards, groups) >= 0
    ensures Excess(shards, groups) > 0 <==> Count(shards, Most(shards, groups)) > Ceiling(|shards|, |groups|)
  {
    var gs, m, c := InOrder(groups), Most(shards, groups), Ceiling(|shards|, |groups|);
    var over: Gid -> int := g => Above(Count(shards, g), c);
    SumAbove(gs, over, 0, m, over(m));
    if over(m) == 0 {
      SumSame(gs, over, _ => 0);
      SumOfConstant(gs, 0);
    }
  }

  lemma DeficitSign(shards: seq<Gid>, groups: set<Gid>)
    requires groups != {}
    ensures Deficit(shards, groups) >= 0
    ensures Deficit(shards, groups) > 0 <==> Count(shards, Least(shards, groups)) < Floor(|shards|, |groups|)
  {
    var gs, l, f := InOrder(groups), Least(shards, groups), Floor(|shards|, |groups|);
    var under: Gid -> int := g => Above(f, Count(shards, g));
    SumAbove(gs, under, 0, l, under(l));
    if under(l) == 0 {
      SumSame(gs, under, _ => 0);
      SumOfConstant(gs, 0);
    }
  }

  /** Giving a shard to the least loaded group removes one from the deficit, if there is any. */
  lemma DeficitAfterGain(shards: seq<Gid>, groups: set<Gid>, i: nat)
    requires groups != {} && i < |shards|
    requires shards[i] in groups ==> Floor(|shards|, |groups|) < Count(shards, shards[i]) && shards[i] != Least(shards, groups)
    ensures Deficit(shards[i := Least(shards, groups)], groups) == Max(Deficit(shards, groups) - 1, 0)
  {
    var gs, l, f := InOrder(groups), Least(shards, groups), Floor(|shards|, |groups|);
    var shards' := shards[i := l];
    forall g ensures Count(shards', g) == Count(shards, g) - (if shards[i] == g then 1 else 0) + (if l == g then 1 else 0) {
      CountUpdate(shards, i, l, g);
    }
    DeficitSign(shards, groups);
    var d := if Count(shards, l) < f then -1 else 0;
    SumChange(gs, g => Above(f, Count(shards, g)), g => Above(f, Count(shards', g)), l, d);
  }

  /** Taking an orphan leaves the excess alone; taking a shard of the most loaded group lowers it, if there is any. */
  lemma ExcessAfterLoss(shards: seq<Gid>, groups: set<Gid>, i: nat)
    requires groups != {} && i < |shards| && Count(shards, Least(shards, groups)) < Ceiling(|shards|, |groups|)
    requires shards[i] in groups ==> shards[i] == Most(shards, groups) && shards[i] != Least(shards, groups)
    ensures Excess(shards[i := Least(shards, groups)], groups)
         == if shards[i] in groups then Max(Excess(shards, groups) - 1, 0) else Excess(shards, groups)
  {
    var gs, l, c := InOrder(groups), Least(shards, groups), Ceiling(|shards|, |groups|);
    var shards' := shards[i := l];
    forall g ensures Count(shards', g) == Count(shards, g) - (if shards[i] == g then 1 else 0) + (if l == g then 1 else 0) {
      CountUpdate(shards, i, l, g);
    }
    ExcessSign(shards, groups);
    if shards[i] in groups {
      var d := if Count(shards, shards[i]) > c then -1 else 0;
      SumChange(gs, g => Above(Count(shards, g), c), g => Above(Count(shards', g), c), shards[i], d);
    } else {
      SumSame(gs, g => Above(Count(shards, g), c), g => Above(Count(shards', g), c));
    }
  }

  /** Adopting an orphan is one relocation less to make. */
  lemma AdoptHelps(shards: seq<Gid>, groups: set<Gid>, i: nat)
    requires groups != {} && i < |shards| && shards[i] !in groups
    ensures Need(shards[i := Least(shards, groups)], groups) == Need(shards, groups) - 1
  {
    OrphansUpdate(shards, groups, i, Least(shards, groups));
    LeastBelowCeiling(shards, groups);
    ExcessAfterLoss(shards, groups, i);
    DeficitAfterGain(shards, groups, i);
    ExcessSign(shards, groups);
  }

  /** So is moving a shard from the most to the least loaded group, while they are two apart. */
  lemma MoveHelps(shards: seq<Gid>, groups: set<Gid>, i: nat)
    requires groups != {} && Placed(shards, groups) && i < |shards| && shards[i] == Most(shards, groups)
    requires Count(shards, Most(shards, groups)) >= Count(shards, Least(shards, groups)) + 2
    ensures Need(shards[i := Least(shards, groups)], groups) == Need(shards, groups) - 1
  {
    OrphansUpdate(shards, groups, i, Least(shards, groups));
    NoOrphans(shards, groups);
    LeastBelowCeiling(shards, groups);
    MostAboveFloor(shards, groups);
    ExcessAfterLoss(shards, groups, i);
    DeficitAfterGain(shards, groups, i);
    SettledIffNoNeed(shards, groups);
    ExcessSign(shards, groups);
    DeficitSign(shards, groups);
  }

  /** Two loads around floor and ceiling: no excess and no deficit exactly when they are within one. */
  lemma WithinOne(ln: int, mn: int, f: int, c: int, e: int, d: int)
    requires f <= c <= f + 1 && e >= 0 && d >= 0 && (e > 0 <==> mn > c) && (d > 0 <==> ln < f)
    requires if ln < mn then ln < c && f < mn else f <= ln && mn <= c
    ensures Max(e, d) == 0 <==> mn < ln + 2
  {
  }

  /** Nothing is needed exactly when the most and the least loaded group are within one shard. */
  lemma SettledIffNoNeed(shards: seq<Gid>, groups: set<Gid>)
    requires groups != {} && Placed(shards, groups)
    ensures Need(shards, groups) >= 0
    ensures Need(shards, groups) == 0 <==> Count(shards, Most(shards, groups)) < Count(shards, Least(shards, groups)) + 2
  {
    var l, m := Least(shards, groups), Most(shards, groups);
    NoOrphans(shards, groups);
    ExcessSign(shards, groups);
    DeficitSign(shards, groups);
    OneApart(|shards|, |groups|);
    if Count(shards, l) < Count(shards, m) {
      LeastBelowCeiling(shards, groups);
      MostAboveFloor(shards, groups);
    } else {
      AllEqual(shards, groups);
    }
    WithinOne(Count(shards, l), Count(shards, m), Floor(|shards|, |groups|), Ceiling(|shards|, |groups|),
              Excess(shards, groups), Deficit(shards, groups));
  }

  lemma BalancedIffNoNeed(shards: seq<Gid>, groups: set<Gid>)
    requires groups != {} && Placed(shards, groups)
    ensures Need(shards, groups) == 0 <==> Balanced(shards, groups)
  {
    SettledIffNoNeed(shards, groups);
    var l, m := Least(shards, groups), Most(shards, groups);
    assert Balanced(shards, groups) ==> Count(shards, m) <= Count(shards, l) + 1;
  }

  /** Equal counts are the floor and the ceiling. */
  lemma AllEqual(shards: seq<Gid>, groups: set<Gid>)
    requires groups != {} && Placed(shards, groups)
    requires Count(shards, Least(shards, groups)) >= Count(shards, Most(shards, groups))
    ensures Count(shards, Least(shards, groups)) >= Floor(|shards|, |groups|)
    ensures Count(shards, Most(shards, groups)) <= Ceiling(|shards|, |groups|)
  {
    var gs, l, m := InOrder(groups), Least(shards, groups), Most(shards, groups);
    CountsAddUp(shards, groups);
    NoOrphans(shards, groups);
    SumAbove(gs, g => Count(shards, g), Count(shards, l), l, 0);
    SumBelow(gs, g => Count(shards, g), Count(shards, m), m, 0);
    FloorCeiling(|shards|, |groups|);
    Cancel(|groups|, Count(shards, m), Floor(|shards|, |groups|));
    Cancel(|groups|, Ceiling(|shards|, |groups|), Count(shards, m));
  }

  // ----- what rebalancing computes -----

  lemma {:induction false} CountPositive(shards: seq<Gid>, g: Gid)
    ensures Count(shards, g) <= |shards|
    ensures Count(shards, g) > 0 <==> g in shards
  {
    if shards != [] {
      var n := |shards| - 1;
      CountPositive(shards[..n], g);
      assert shards == shards[..n] + [shards[n]];
    }
  }

  function FirstOf(shards: seq<Gid>, g: Gid): (i: nat)
    requires g in shards
    ensures i < |shards| && shards[i] == g && forall j :: 0 <= j < i ==> shards[j] != g
  {
    if shards[0] == g then 0 else 1 + FirstOf(shards[1..], g)
  }

  /** Shards from the i-th on that are on no member go, one after the other, to the least loaded group. */
  ghost function Adopted(shards: seq<Gid>, groups: set<Gid>, i: nat): (r: seq<Gid>)
    requires groups != {} && i <= |shards|
    ensures |r| == |shards|
    decreases |shards| - i
  {
    if i == |shards| then shards
    else if shards[i] in groups then Adopted(shards, groups, i + 1)
    else Adopted(shards[i := Least(shards, groups)], groups, i + 1)
  }

  predicate Uneven(shards: seq<Gid>, l: Gid, m: Gid) {
    Count(shards, m) >= Count(shards, l) + 2
  }

  lemma PlacedUpdate(shards: seq<Gid>, groups: set<Gid>, i: nat, y: Gid)
    requires Placed(shards, groups) && i < |shards| && y in groups
    ensures Placed(shards[i := y], groups)
  {
    NoOrphans(shards, groups);
    OrphansUpdate(shards, groups, i, y);
    NoOrphans(shards[i := y], groups);
  }

  lemma MovedHelps(shards: seq<Gid>, groups: set<Gid>)
    requires groups != {} && Placed(shards, groups) && Uneven(shards, Least(shards, groups), Most(shards, groups))
    ensures Most(shards, groups) in shards
    ensures var r := shards[FirstOf(shards, Most(shards, groups)) := Least(shards, groups)];
            Placed(r, groups) && Need(r, groups) == Need(shards, groups) - 1 >= 0 && Relocated(shards, r) <= 1
  {
    var l, m := Least(shards, groups), Most(shards, groups);
    CountPositive(shards, m);
    var i := FirstOf(shards, m);
    PlacedUpdate(shards, groups, i, l);
    MoveHelps(shards, groups, i);
    SettledIffNoNeed(shards, groups);
    RelocatedOne(shards, i, l);
  }

  /** The assignment after the first shard of the most loaded group has gone to the least loaded one. */
  ghost function Moved(shards: seq<Gid>, groups: set<Gid>): (r: seq<Gid>)
    requires groups != {} && Placed(shards, groups) && Uneven(shards, Least(shards, groups), Most(shards, groups))
    ensures |r| == |shards| && Placed(r, groups) && Need(r, groups) == Need(shards, groups) - 1 >= 0
    ensures Relocated(shards, r) <= 1
  {
    MovedHelps(shards, groups);
    shards[FirstOf(shards, Most(shards, groups)) := Least(shards, groups)]
  }

  ghost function Leveled(shards: seq<Gid>, groups: set<Gid>): (r: seq<Gid>)
    requires groups != {} && Placed(shards, groups)
    ensures |r| == |shards|
    decreases Need(shards, groups)
  {
    if Uneven(shards, Least(shards, groups), Most(shards, groups)) then Leveled(Moved(shards, groups), groups) else shards
  }

  /** How many shards the last loop moves. */
  ghost function Moves(shards: seq<Gid>, groups: set<Gid>): nat
    requires groups != {} && Placed(shards, groups)
    decreases Need(shards, groups)
  {
    if Uneven(shards, Least(shards, groups), Most(shards, groups)) then 1 + Moves(Moved(shards, groups), groups) else 0
  }

  ghost function Rebalanced(shards: seq<Gid>, groups: set<Gid>): (r: seq<Gid>)
    ensures |r| == |shards|
  {
    if groups == {} then seq(|shards|, _ => 0)
    else
      AdoptedNeeds(shards, groups, 0);
      Leveled(Adopted(shards, groups, 0), groups)
  }

  lemma {:induction false} RelocatedOne(shards: seq<Gid>, i: nat, y: Gid)
    requires i < |shards|
    ensures Relocated(shards, shards[i := y]) <= 1
  {
    var n := |shards| - 1;
    if i < n {
      assert shards[i := y][..n] == shards[..n][i := y];
      RelocatedOne(shards[..n], i, y);
    } else {
      assert shards[i := y][..n] == shards[..n];
      RelocatedNone(shards[..n]);
    }
  }

  lemma {:induction false} RelocatedNone(shards: seq<Gid>)
    ensures Relocated(shards, shards) == 0
  {
    if shards != [] { RelocatedNone(shards[..|shards| - 1]); }
  }

  lemma {:induction false} RelocatedVia(a: seq<Gid>, b: seq<Gid>, c: seq<Gid>)
    requires |a| == |b| == |c|
    ensures Relocated(a, c) <= Relocated(a, b) + Relocated(b, c)
  {
    if a != [] {
      var n := |a| - 1;
      RelocatedVia(a[..n], b[..n], c[..n]);
    }
  }

  /** Adopting places every shard and relocates no more than it lowers the need. */
  lemma {:induction false} AdoptedNeeds(shards: seq<Gid>, groups: set<Gid>, i: nat)
    requires groups != {} && i <= |shards| && forall j :: 0 <= j < i ==> shards[j] in groups
    ensures var r := Adopted(shards, groups, i);
            Placed(r, groups) && Relocated(shards, r) <= Need(shards, groups) - Need(r, groups)
    decreases |shards| - i
  {
    if i == |shards| {
      RelocatedNone(shards);
    } else if shards[i] in groups {
      AdoptedNeeds(shards, groups, i + 1);
    } else {
      var next := shards[i := Least(shards, groups)];
      AdoptedNeeds(next, groups, i + 1);
      AdoptHelps(shards, groups, i);
      RelocatedOne(shards, i, Least(shards, groups));
      RelocatedVia(shards, next, Adopted(next, groups, i + 1));
    }
  }

  /** The last loop ends balanced. */
  lemma {:induction false} LeveledBalances(shards: seq<Gid>, groups: set<Gid>)
    requires groups != {} && Placed(shards, groups)
    ensures Placed(Leveled(shards, groups), groups) && Need(Leveled(shards, groups), groups) == 0
    decreases Need(shards, groups)
  {
    if Uneven(shards, Least(shards, groups), Most(shards, groups)) {
      LeveledBalances(Moved(shards, groups), groups);
    } else {
      SettledIffNoNeed(shards, groups);
    }
  }

  /** It makes as many moves as relocations are needed. */
  lemma {:induction false} MovesNeeded(shards: seq<Gid>, groups: set<Gid>)
    requires groups != {} && Placed(shards, groups)
    ensures Moves(shards, groups) == Need(shards, groups)
    decreases Need(shards, groups)
  {
    if Uneven(shards, Least(shards, groups), Most(shards, groups)) {
      MovesNeeded(Moved(shards, groups), groups);
    } else {
      SettledIffNoNeed(shards, groups);
    }
  }

  /** Each move relocates at most one shard. */
  lemma {:induction false} LeveledRelocates(shards: seq<Gid>, groups: set<Gid>)
    requires groups != {} && Placed(shards, groups)
    ensures Relocated(shards, Leveled(shards, groups)) <= Moves(shards, groups)
    decreases Need(shards, groups)
  {
    if Uneven(shards, Least(shards, groups), Most(shards, groups)) {
      var next := Moved(shards, groups);
      LeveledRelocates(next, groups);
      RelocatedVia(shards, next, Leveled(next, groups));
    } else {
      RelocatedNone(shards);
    }
  }

  lemma LeveledNeeds(shards: seq<Gid>, groups: set<Gid>)
    requires groups != {} && Placed(shards, groups)
    ensures var r := Leveled(shards, groups);
            Placed(r, groups) && Need(r, groups) == 0 && Relocated(shards, r) <= Need(shards, groups)
    ensures Moves(shards, groups) == Need(shards, groups)
  {
    LeveledBalances(shards, groups);
    MovesNeeded(shards, groups);
    LeveledRelocates(shards, groups);
  }

  // ----- no balanced assignment relocates fewer shards -----

  /** Shards of group `g` in `a` that are elsewhere in `b`. */
  function Left(a: seq<Gid>, b: seq<Gid>, g: Gid): nat
    requires |a| == |b|
  {
    if a == [] then 0
    else
      var n := |a| - 1;
      Left(a[..n], b[..n], g) + (if a[n] == g && b[n] != g then 1 else 0)
  }

  lemma {:induction false} CountLeft(a: seq<Gid>, b: seq<Gid>, g: Gid)
    requires |a| == |b|
    ensures Count(a, g) <= Count(b, g) + Left(a, b, g)
  {
    if a != [] {
      var n := |a| - 1;
      CountLeft(a[..n], b[..n], g);
    }
  }

  lemma {:induction false} RelocatedSymmetric(a: seq<Gid>, b: seq<Gid>)
    requires |a| == |b|
    ensures Relocated(a, b) == Relocated(b, a)
  {
    if a != [] {
      var n := |a| - 1;
      RelocatedSymmetric(a[..n], b[..n]);
    }
  }

  /** Every relocated shard left a group or was an orphan. */
  lemma {:induction false} LeftAddsUp(a: seq<Gid>, b: seq<Gid>, groups: set<Gid>)
    requires |a| == |b| && forall i :: 0 <= i < |a| ==> a[i] in groups || b[i] in groups
    ensures Sum(InOrder(groups), LeftOf(a, b)) + Orphans(a, groups) == Relocated(a, b)
  {
    if a == [] {
      SumOfConstant(InOrder(groups), 0);
      SumSame(InOrder(groups), LeftOf(a, b), _ => 0);
    } else {
      var n := |a| - 1;
      LeftAddsUp(a[..n], b[..n], groups);
      LeftOneMore(a, b, groups);
    }
  }

  lemma LeftOneMore(a: seq<Gid>, b: seq<Gid>, groups: set<Gid>)
    requires |a| == |b| > 0
    ensures var n := |a| - 1;
            Sum(InOrder(groups), LeftOf(a, b))
            == Sum(InOrder(groups), LeftOf(a[..n], b[..n])) + (if a[n] in groups && a[n] != b[n] then 1 else 0)
  {
    var gs, n := InOrder(groups), |a| - 1;
    var f, f' := LeftOf(a[..n], b[..n]), LeftOf(a, b);
    assert forall g :: f'(g) == f(g) + (if a[n] == g && b[n] != g then 1 else 0);
    if a[n] in groups && a[n] != b[n] {
      SumChange(gs, f, f', a[n], 1);
    } else {
      SumSame(gs, f, f');
    }
  }

  ghost function LeftOf(a: seq<Gid>, b: seq<Gid>): Gid -> int
    requires |a| == |b|
  {
    g => Left(a, b, g)
  }

  lemma BalancedBounds(shards: seq<Gid>, groups: set<Gid>, g: Gid)
    requires groups != {} && Balanced(shards, groups) && g in groups
    ensures Floor(|shards|, |groups|) <= Count(shards, g) <= Ceiling(|shards|, |groups|)
  {
    BalancedIffNoNeed(shards, groups);
    NoOrphans(shards, groups);
    ExcessSign(shards, groups);
    DeficitSign(shards, groups);
  }

  lemma PlacedAt(shards: seq<Gid>, groups: set<Gid>)
    requires Placed(shards, groups)
    ensures forall i :: 0 <= i < |shards| ==> shards[i] in groups
  {
    forall i | 0 <= i < |shards| ensures shards[i] in groups {
      var g := shards[i];
      assert g in shards;
    }
  }

  /** To bring every group down to `c`, orphans and the shards above `c` have to be relocated. */
  lemma OverMustLeave(shards: seq<Gid>, groups: set<Gid>, other: seq<Gid>, c: int)
    requires |other| == |shards| && Placed(other, groups) && forall g :: g in groups ==> Count(other, g) <= c
    ensures Orphans(shards, groups) + Sum(InOrder(groups), g => Above(Count(shards, g), c)) <= Relocated(shards, other)
  {
    var gs := InOrder(groups);
    PlacedAt(other, groups);
    LeftAddsUp(shards, other, groups);
    forall g | g in gs ensures Above(Count(shards, g), c) <= LeftOf(shards, other)(g) { CountLeft(shards, other, g); }
    SumAtMost(gs, g => Above(Count(shards, g), c), LeftOf(shards, other));
  }

  /** To bring every group up to `f`, the shards missing below `f` have to arrive. */
  lemma UnderMustArrive(shards: seq<Gid>, groups: set<Gid>, other: seq<Gid>, f: int)
    requires |other| == |shards| && Placed(other, groups) && forall g :: g in groups ==> f <= Count(other, g)
    ensures Sum(InOrder(groups), g => Above(f, Count(shards, g))) <= Relocated(shards, other)
  {
    var gs := InOrder(groups);
    PlacedAt(other, groups);
    LeftAddsUp(other, shards, groups);
    RelocatedSymmetric(shards, other);
    forall g | g in gs ensures Above(f, Count(shards, g)) <= LeftOf(other, shards)(g) { CountLeft(other, shards, g); }
    SumAtMost(gs, g => Above(f, Count(shards, g)), LeftOf(other, shards));
  }

  lemma NeedIsLowerBound(shards: seq<Gid>, groups: set<Gid>, other: seq<Gid>)
    requires groups != {} && |other| == |shards| && Balanced(other, groups)
    ensures Need(shards, groups) <= Relocated(shards, other)
  {
    forall g | g in groups ensures Floor(|shards|, |groups|) <= Count(other, g) <= Ceiling(|shards|, |groups|) {
      BalancedBounds(other, groups, g);
    }
    OverMustLeave(shards, groups, other, Ceiling(|shards|, |groups|));
    UnderMustArrive(shards, groups, other, Floor(|shards|, |groups|));
  }

  // ----- the theorems -----

  /** With any group at all, every shard ends on a member and the groups are within one shard. */
  lemma RebalanceBalances(shards: seq<Gid>, groups: set<Gid>)
    ensures groups != {} ==> Balanced(Rebalanced(shards, groups), groups)
  {
    if groups != {} {
      AdoptedNeeds(shards, groups, 0);
      LeveledNeeds(Adopted(shards, groups, 0), groups);
      BalancedIffNoNeed(Rebalanced(shards, groups), groups);
    }
  }

  /** Rebalancing relocates exactly the shards that have to be, orphans included: no balanced
      assignment relocates fewer. */
  lemma RebalanceOptimal(shards: seq<Gid>, groups: set<Gid>, other: seq<Gid>)
    requires groups != {} && |other| == |shards| && Balanced(other, groups)
    ensures Relocated(shards, Rebalanced(shards, groups)) == Need(shards, groups) <= Relocated(shards, other)
  {
    var adopted, r := Adopted(shards, groups, 0), Rebalanced(shards, groups);
    AdoptedNeeds(shards, groups, 0);
    LeveledNeeds(adopted, groups);
    RelocatedVia(shards, adopted, r);
    RebalanceBalances(shards, groups);
    NeedIsLowerBound(shards, groups, r);
    NeedIsLowerBound(shards, groups, other);
  }

  /** When every shard starts on a member, the loop makes as many moves as there is excess above the
      ceiling or deficit below the floor, whichever is more. */
  lemma MovesAreExcessOrDeficit(shards: seq<Gid>, groups: set<Gid>)
    requires groups != {} && Placed(shards, groups)
    ensures Adopted(shards, groups, 0) == shards
    ensures Moves(shards, groups) == Max(Excess(shards, groups), Deficit(shards, groups))
            == Relocated(shards, Rebalanced(shards, groups))
  {
    NothingToAdopt(shards, groups, 0);
    LeveledNeeds(shards, groups);
    NoOrphans(shards, groups);
    RebalanceBalances(shards, groups);
    RebalanceOptimal(shards, groups, Rebalanced(shards, groups));
  }

  lemma {:induction false} NothingToAdopt(shards: seq<Gid>, groups: set<Gid>, i: nat)
    requires groups != {} && Placed(shards, groups) && i <= |shards|
    ensures Adopted(shards, groups, i) == shards
    decreases |shards| - i
  {
    if i < |shards| {
      var g := shards[i];
      assert g in shards && g in groups;
      NothingToAdopt(shards, groups, i + 1);
    }
  }

  /** A balanced assignment is left as it is. */
  lemma RebalanceIdempotent(shards: seq<Gid>, groups: set<Gid>)
    requires groups != {} && Balanced(shards, groups)
    ensures Rebalanced(shards, groups) == shards
  {
    NothingToAdopt(shards, groups, 0);
    BalancedIffNoNeed(shards, groups);
    SettledIffNoNeed(shards, groups);
  }

  // ----- the configuration object -----

  predicate Ascending(gs: seq<Gid>) {
    forall i, j :: 0 <= i < j < |gs| ==> gs[i] < gs[j]
  }

  lemma HeadIsLeast(gs: seq<Gid>)
    requires Ascending(gs) && gs != []
    ensures forall g :: g in gs <==> g == gs[0] || g in gs[1..]
    ensures forall g :: g in gs[1..] ==> gs[0] < g
  {
    assert gs == [gs[0]] + gs[1..];
    forall g | g in gs[1..] ensures gs[0] < g {
      var j :| 0 <= j < |gs[1..]| && gs[1..][j] == g;
      assert gs[j + 1] == g;
    }
  }

  function Insert(x: Gid, gs: seq<Gid>): (r: seq<Gid>)
    requires Ascending(gs)
    ensures Ascending(r) && forall g :: g in r <==> g in gs || g == x
  {
    if gs == [] then [x]
    else if x < gs[0] then [x] + gs
    else if x == gs[0] then gs
    else
      HeadIsLeast(gs);
      var rest := Insert(x, gs[1..]);
      assert forall i :: 0 <= i < |rest| ==> rest[i] in rest;
      [gs[0]] + rest
  }

  /** `slices.Sort` on distinct values. */
  function Sorted(gs: seq<Gid>): (r: seq<Gid>)
    ensures Ascending(r) && forall g :: g in r <==> g in gs
  {
    if gs == [] then [] else Insert(gs[0], Sorted(gs[1..]))
  }

  class ShardConfig {
    const shards: array<Gid>
    var groups: map<Gid, seq<string>>

    constructor (shards: array<Gid>, groups: map<Gid, seq<string>>)
      ensures this.shards == shards && this.groups == groups
    {
      this.shards, this.groups := shards, groups;
    }

    /** How many shards each group has; absent groups have none. */
    method Tally() returns (counts: map<Gid, nat>)
      ensures forall g :: (if g in counts then counts[g] else 0) == Count(shards[..], g)
    {
      counts := map[];
      for s := 0 to shards.Length
        invariant forall g :: (if g in counts then counts[g] else 0) == Count(shards[..s], g)
      {
        var g := shards[s];
        counts := counts[g := (if g in counts then counts[g] else 0) + 1];
        assert shards[..s + 1][..s] == shards[..s];
      }
      assert shards[..shards.Length] == shards[..];
    }

    /** The groups, read in any order and then sorted. */
    method SortedGroups() returns (gs: seq<Gid>)
      ensures Ascending(gs) && forall g :: g in gs <==> g in groups
    {
      var todo, read := groups.Keys, [];
      while todo != {}
        invariant todo <= groups.Keys && forall g :: g in groups <==> g in todo || g in read
        decreases |todo|
      {
        Inhabited(todo);
        var g :| g in todo;
        todo, read := todo - {g}, read + [g];
      }
      gs := Sorted(read);
    }

    /** One pass over the sorted groups. */
    static method Scan(gs: seq<Gid>, counts: map<Gid, nat>, ghost all: seq<Gid>)
      returns (mg: Gid, mn: int, lg: Gid, ln: int)
      requires Ascending(gs) && |all| < 257 && forall g :: (if g in counts then counts[g] else 0) == Count(all, g)
      ensures gs == [] ==> (mg, mn, lg, ln) == (-1, -1, -1, 257)
      ensures gs != [] ==> lg in gs && ln == Count(all, lg) && mg in gs && mn == Count(all, mg)
      ensures forall g :: g in gs ==> ln < Count(all, g) || (ln == Count(all, g) && lg <= g)
      ensures forall g :: g in gs ==> mn > Count(all, g) || (mn == Count(all, g) && mg <= g)
    {
      mn, mg, ln, lg := -1, -1, 257, -1;
      for i := 0 to |gs|
        invariant i == 0 ==> (mg, mn, lg, ln) == (-1, -1, -1, 257)
        invariant i > 0 ==> lg in gs[..i] && ln == Count(all, lg) && mg in gs[..i] && mn == Count(all, mg)
        invariant forall j :: 0 <= j < i ==> ln < Count(all, gs[j]) || (ln == Count(all, gs[j]) && lg <= gs[j])
        invariant forall j :: 0 <= j < i ==> mn > Count(all, gs[j]) || (mn == Count(all, gs[j]) && mg <= gs[j])
      {
        var g := gs[i];
        CountPositive(all, g);
        var n := if g in counts then counts[g] else 0;
        if n < ln { ln, lg := n, g; }
        if n > mn { mn, mg := n, g; }
      }
    }

    /** Of the groups at the two ends, the smallest id wins, so the order in which the map is read
        does not matter. The bound keeps counts below the sentinel 257. */
    method Analyze() returns (mg: Gid, mn: int, lg: Gid, ln: int)
      requires shards.Length < 257
      ensures groups.Keys == {} ==> (mg, mn, lg, ln) == (-1, -1, -1, 257)
      ensures groups.Keys != {} ==>
                && IsMost(shards[..], groups.Keys, mg) && mn == Count(shards[..], mg)
                && IsLeast(shards[..], groups.Keys, lg) && ln == Count(shards[..], lg)
    {
      var counts := Tally();
      var gs := SortedGroups();
      mg, mn, lg, ln := Scan(gs, counts, shards[..]);
      Inhabited(groups.Keys);
      assert gs != [] ==> gs[0] in groups.Keys;
    }

    method LeastLoaded() returns (lg: Gid)
      requires shards.Length < 257
      ensures if groups.Keys == {} then lg == -1 else IsLeast(shards[..], groups.Keys, lg)
    {
      var _, _, g, _ := Analyze();
      return g;
    }

    method Clear()
      modifies shards
      ensures shards[..] == seq(shards.Length, _ => 0)
    {
      for s := 0 to shards.Length
        invariant forall j :: 0 <= j < s ==> shards[j] == 0
      {
        shards[s] := 0;
      }
    }

    /** Assign all unassigned shards. */
    method Adopt()
      requires shards.Length < 257 && groups.Keys != {}
      modifies shards
      ensures shards[..] == Adopted(old(shards[..]), groups.Keys, 0)
    {
      for s := 0 to shards.Length
        invariant Adopted(shards[..], groups.Keys, s) == Adopted(old(shards[..]), groups.Keys, 0)
      {
        if shards[s] !in groups {
          ghost var before := shards[..];
          var lg := LeastLoaded();
          shards[s] := lg;
          assert shards[..] == before[s := Least(before, groups.Keys)];
        }
      }
    }

    /** Move the first shard of `mg` to `lg`. */
    method MoveOne(mg: Gid, lg: Gid)
      requires mg in shards[..]
      modifies shards
      ensures shards[..] == old(shards[..])[FirstOf(old(shards[..]), mg) := lg]
    {
      var s := 0;
      while shards[s] != mg
        invariant 0 <= s <= FirstOf(shards[..], mg)
        invariant shards[..] == old(shards[..])
        decreases shards.Length - s
      {
        s := s + 1;
      }
      shards[s] := lg;
    }

    /** One turn of the last loop: move a shard, unless the groups are within one shard. */
    method MoveIfUneven() returns (moved: bool)
      requires shards.Length < 257 && groups.Keys != {} && Placed(shards[..], groups.Keys)
      modifies shards
      ensures var before, gs := old(shards[..]), groups.Keys;
              if moved then Uneven(before, Least(before, gs), Most(before, gs)) && shards[..] == Moved(before, gs)
              else !Uneven(before, Least(before, gs), Most(before, gs)) && shards[..] == before
    {
      ghost var before := shards[..];
      var mg, mn, lg, ln := Analyze();
      assert mg == Most(before, groups.Keys) && lg == Least(before, groups.Keys);
      if mn < ln + 2 { return false; }
      CountPositive(before, mg);
      MoveOne(mg, lg);
      return true;
    }

    /** Move shards from the most to the least loaded group. */
    method Level()
      requires shards.Length < 257 && groups.Keys != {} && Placed(shards[..], groups.Keys)
      modifies shards
      ensures shards[..] == Leveled(old(shards[..]), groups.Keys)
    {
      var moved := true;
      while moved
        invariant Placed(shards[..], groups.Keys)
        invariant Leveled(shards[..], groups.Keys) == Leveled(old(shards[..]), groups.Keys)
        invariant !moved ==> shards[..] == Leveled(shards[..], groups.Keys)
        decreases Need(shards[..], groups.Keys), moved
      {
        moved := MoveIfUneven();
      }
    }

    method Rebalance()
      requires shards.Length < 257
      modifies shards
      ensures shards[..] == Rebalanced(old(shards[..]), groups.Keys)
    {
      if |groups| < 1 {
        assert groups.Keys == {};
        Clear();
        return;
      }
      AdoptedNeeds(shards[..], groups.Keys, 0);
      Adopt();
      Level();
    }
  }
}
