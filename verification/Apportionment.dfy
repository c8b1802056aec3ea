/**
  The largest-remainder step of the spread scheduler, in exact arithmetic: every
  cluster first moves by the floor of its share, then the clusters with the
  largest remainders move by one more until the target is met.
*/
module Apportionment {
  /** `share` is the part of the change that falls to this cluster; in the program a loop variable. */
  datatype Allocation = Allocation(name: string, current: nat, weight: real, share: real, quota: int, remainder: real)

  // ------------------------------------------------------------------- sums

  function Sum(xs: seq<real>): real {
    if xs == [] then 0.0 else Sum(xs[..|xs| - 1]) + xs[|xs| - 1]
  }

  lemma SumNext(xs: seq<real>, i: nat)
    requires i < |xs|
    ensures Sum(xs[..i + 1]) == Sum(xs[..i]) + xs[i]
  {
    assert xs[..i + 1][..i] == xs[..i];
  }

  lemma {:induction false} SumConcat(xs: seq<real>, ys: seq<real>)
    ensures Sum(xs + ys) == Sum(xs) + Sum(ys)
  {
    if ys == [] {
      assert xs + ys == xs;
    } else {
      SumConcat(xs, ys[..|ys| - 1]);
      assert (xs + ys)[..|xs + ys| - 1] == xs + ys[..|ys| - 1];
    }
  }

  lemma SumInsert(xs: seq<real>, k: nat, x: real)
    requires k <= |xs|
    ensures Sum(xs[..k] + [x] + xs[k..]) == Sum(xs) + x
  {
    SumConcat(xs[..k] + [x], xs[k..]);
    SumConcat(xs[..k], [x]);
    SumConcat(xs[..k], xs[k..]);
    assert xs[..k] + xs[k..] == xs;
    assert [x][..0] == [];
    assert Sum([x]) == x;
  }

  lemma SumUpdate(xs: seq<real>, k: nat, x: real)
    requires k < |xs|
    ensures Sum(xs[k := x]) == Sum(xs) - xs[k] + x
  {
    SumInsert(xs[..k] + xs[k + 1..], k, x);
    SumInsert(xs[..k] + xs[k + 1..], k, xs[k]);
    var rest := xs[..k] + xs[k + 1..];
    assert rest[..k] == xs[..k] && rest[k..] == xs[k + 1..];
    assert xs[..k] + [x] + xs[k + 1..] == xs[k := x];
    assert xs[..k] + [xs[k]] + xs[k + 1..] == xs;
  }

  /** Termwise ordered lists have ordered sums. */
  lemma {:induction false} SumMonotone(xs: seq<real>, ys: seq<real>)
    requires |xs| == |ys| && forall i :: 0 <= i < |xs| ==> xs[i] <= ys[i]
    ensures Sum(xs) <= Sum(ys)
  {
    if xs != [] {
      SumMonotone(xs[..|xs| - 1], ys[..|ys| - 1]);
    }
  }

  lemma {:induction false} SumAdd(xs: seq<real>, ys: seq<real>, sums: seq<real>)
    requires |xs| == |ys| == |sums| && forall i :: 0 <= i < |xs| ==> sums[i] == xs[i] + ys[i]
    ensures Sum(sums) == Sum(xs) + Sum(ys)
  {
    if xs != [] {
      SumAdd(xs[..|xs| - 1], ys[..|ys| - 1], sums[..|sums| - 1]);
    }
  }

  /** The portion of an amount in the proportion of a part to the whole. */
  function Portion(amount: real, part: real, whole: real): real
    requires whole != 0.0
  {
    amount * part / whole
  }

  lemma PortionAdds(c: real, x: real, y: real, d: real)
    requires d != 0.0
    ensures Portion(c, x, d) + Portion(c, y, d) == Portion(c, x + y, d)
  {
  }

  lemma ScaleBack(c: real, d: real)
    requires d != 0.0
    ensures Portion(c, d, d) == c && Portion(c, 0.0, d) == 0.0
  {
  }

  /** The portions of an amount in proportion to `xs` add up to the portion of their sum. */
  lemma {:induction false} SumScaled(xs: seq<real>, c: real, d: real, shares: seq<real>)
    requires d != 0.0 && |shares| == |xs| && forall i :: 0 <= i < |xs| ==> shares[i] == Portion(c, xs[i], d)
    ensures Sum(shares) == Portion(c, Sum(xs), d)
  {
    if xs == [] {
      ScaleBack(c, d);
    } else {
      var n := |xs| - 1;
      SumScaled(xs[..n], c, d, shares[..n]);
      PortionAdds(c, Sum(xs[..n]), xs[n], d);
    }
  }

  lemma {:induction false} SumBelowLength(xs: seq<real>)
    requires forall i :: 0 <= i < |xs| ==> 0.0 <= xs[i] < 1.0
    ensures 0.0 <= Sum(xs) && Sum(xs) <= |xs| as real && (xs != [] ==> Sum(xs) < |xs| as real)
  {
    if xs != [] {
      SumBelowLength(xs[..|xs| - 1]);
    }
  }

  lemma {:induction false} SumOfZeros(xs: seq<real>)
    requires forall i :: 0 <= i < |xs| ==> xs[i] == 0.0
    ensures Sum(xs) == 0.0
  {
    if xs != [] {
      SumOfZeros(xs[..|xs| - 1]);
    }
  }

  /** The remainders of a whole total: the largest ones that make it up are all positive. */
  lemma LeftoverIsPositive(xs: seq<real>, leftover: int)
    requires forall i :: 0 <= i < |xs| ==> 0.0 <= xs[i] < 1.0
    requires forall i, j :: 0 <= i < j < |xs| ==> xs[i] >= xs[j]
    requires Sum(xs) == leftover as real
    ensures 0 <= leftover <= |xs|
    ensures forall i :: 0 <= i < leftover ==> xs[i] > 0.0
  {
    SumBelowLength(xs);
    forall i | 0 <= i < leftover ensures xs[i] > 0.0 {
      SumUpToZero(xs, i);
    }
  }

  /** A descending list with a zero at `i` adds up to at most `i`, and to less if `i` is positive. */
  lemma SumUpToZero(xs: seq<real>, i: nat)
    requires i < |xs| && forall j :: 0 <= j < |xs| ==> 0.0 <= xs[j] < 1.0
    requires forall j, k :: 0 <= j < k < |xs| ==> xs[j] >= xs[k]
    ensures xs[i] == 0.0 ==> Sum(xs) <= i as real
  {
    SumConcat(xs[..i], xs[i..]);
    assert xs[..i] + xs[i..] == xs;
    SumBelowLength(xs[..i]);
    if xs[i] == 0.0 {
      SumOfZeros(xs[i..]);
    }
  }

  // -------------------------------------------------------------- allocations

  function Currents(s: seq<Allocation>): (r: seq<real>) {
    seq(|s|, i requires 0 <= i < |s| => s[i].current as real)
  }

  function Weights(s: seq<Allocation>): (r: seq<real>) {
    seq(|s|, i requires 0 <= i < |s| => s[i].weight)
  }

  function Shares(s: seq<Allocation>): (r: seq<real>) {
    seq(|s|, i requires 0 <= i < |s| => s[i].share)
  }

  function Quotas(s: seq<Allocation>): (r: seq<real>) {
    seq(|s|, i requires 0 <= i < |s| => s[i].quota as real)
  }

  function Remainders(s: seq<Allocation>): (r: seq<real>) {
    seq(|s|, i requires 0 <= i < |s| => s[i].remainder)
  }

  predicate Unique(s: seq<Allocation>) {
    forall i, j :: 0 <= i < j < |s| ==> s[i].name != s[j].name
  }

  function Base(x: Allocation): (string, nat, real, real) {
    (x.name, x.current, x.weight, x.share)
  }

  function Bases(s: seq<Allocation>): (r: seq<(string, nat, real, real)>) {
    seq(|s|, i requires 0 <= i < |s| => Base(s[i]))
  }

  /** The same clusters in any order, with any quotas and remainders. */
  predicate SameClusters(s: seq<Allocation>, t: seq<Allocation>) {
    multiset(Bases(s)) == multiset(Bases(t))
  }

  function Ceiling(x: real): int {
    if x == x.Floor as real then x.Floor else x.Floor + 1
  }

  /** By how much the cluster moved. */
  function Change(x: Allocation, up: bool): int {
    if up then x.quota - x.current else x.current - x.quota
  }

  /** The cluster moved by the floor or the ceiling of its share. */
  predicate Moved(x: Allocation, up: bool) {
    x.share.Floor <= Change(x, up) <= Ceiling(x.share)
  }

  function Fraction(share: real): real {
    share - share.Floor as real
  }

  /** A change beyond the floor of its share has no smaller a remainder than one that stops at the floor. */
  predicate Outranks(change: int, share: real, other: int, otherShare: real) {
    change > share.Floor && other == otherShare.Floor ==> Fraction(share) >= Fraction(otherShare)
  }

  /** The clusters that moved by one more than their floor are those with the largest remainders. */
  predicate LargestFirst(s: seq<Allocation>, up: bool) {
    forall j, k {:trigger Change(s[j], up), Change(s[k], up)} :: 0 <= j < |s| && 0 <= k < |s| ==>
      Outranks(Change(s[j], up), s[j].share, Change(s[k], up), s[k].share)
  }

  function Floored(x: Allocation, up: bool): Allocation {
    var q := x.share.Floor;
    x.(quota := if up then x.quota + q else x.quota - q, remainder := x.share - q as real)
  }

  predicate Descending(s: seq<Allocation>) {
    forall i, j :: 0 <= i < j < |s| ==> s[i].remainder >= s[j].remainder
  }

  method TotalQuota(s: seq<Allocation>) returns (n: int)
    ensures n as real == Sum(Quotas(s))
  {
    n := 0;
    for i := 0 to |s|
      invariant n as real == Sum(Quotas(s)[..i])
    {
      SumNext(Quotas(s), i);
      n := n + s[i].quota;
    }
    assert Quotas(s)[..|s|] == Quotas(s);
  }

  /** The same allocations in another order, with what that implies for the derived lists. */
  ghost predicate Permutes(t: seq<Allocation>, s: seq<Allocation>) {
    && multiset(t) == multiset(s) && SameClusters(t, s)
    && Sum(Quotas(t)) == Sum(Quotas(s)) && Sum(Remainders(t)) == Sum(Remainders(s))
  }

  ghost predicate Added(t: seq<Allocation>, x: Allocation, u: seq<Allocation>) {
    && multiset(u) == multiset(t) + multiset{x} && multiset(Bases(u)) == multiset(Bases(t)) + multiset{Base(x)}
    && Sum(Quotas(u)) == Sum(Quotas(t)) + x.quota as real && Sum(Remainders(u)) == Sum(Remainders(t)) + x.remainder
  }

  lemma InsertAdds(t: seq<Allocation>, k: nat, x: Allocation)
    requires k <= |t|
    ensures Added(t, x, t[..k] + [x] + t[k..])
  {
    var u := t[..k] + [x] + t[k..];
    InsertSums(t, k, x);
    InsertIsAdd(t, k, x);
    InsertIsAdd(Bases(t), k, Base(x));
    assert Bases(u) == Bases(t)[..k] + [Base(x)] + Bases(t)[k..];
  }

  lemma AddedNext(s: seq<Allocation>, i: nat, t: seq<Allocation>, u: seq<Allocation>)
    requires i < |s| && Permutes(t, s[..i]) && Added(t, s[i], u)
    ensures Permutes(u, s[..i + 1])
  {
    InsertAdds(s[..i], i, s[i]);
    assert s[..i + 1] == s[..i][..i] + [s[i]] + s[..i][i..];
  }

  method InsertByRemainder(t: seq<Allocation>, x: Allocation) returns (u: seq<Allocation>)
    requires Descending(t) && Unique(t) && forall j :: 0 <= j < |t| ==> t[j].name != x.name
    ensures Added(t, x, u) && Descending(u) && Unique(u)
  {
    var k := 0;
    while k < |t| && t[k].remainder >= x.remainder
      invariant k <= |t|
      invariant forall j :: 0 <= j < k ==> t[j].remainder >= x.remainder
    {
      k := k + 1;
    }
    u := t[..k] + [x] + t[k..];
    InsertAdds(t, k, x);
    InsertKeepsOrder(t, k, x);
  }

  lemma InsertIsAdd<T>(t: seq<T>, k: nat, x: T)
    requires k <= |t|
    ensures multiset(t[..k] + [x] + t[k..]) == multiset(t) + multiset{x}
  {
    assert t == t[..k] + t[k..];
  }

  lemma InsertKeepsOrder(t: seq<Allocation>, k: nat, x: Allocation)
    requires Descending(t) && Unique(t) && forall j :: 0 <= j < |t| ==> t[j].name != x.name
    requires k <= |t| && (forall j :: 0 <= j < k ==> t[j].remainder >= x.remainder) && (k < |t| ==> t[k].remainder < x.remainder)
    ensures Descending(t[..k] + [x] + t[k..]) && Unique(t[..k] + [x] + t[k..])
  {
    var u := t[..k] + [x] + t[k..];
    assert forall i :: 0 <= i < |u| ==> u[i] == if i < k then t[i] else if i == k then x else t[i - 1];
  }

  /** Sorts by remainder, largest first; callers rely on no particular order of ties. */
  method SortByRemainder(s: seq<Allocation>) returns (t: seq<Allocation>)
    requires Unique(s)
    ensures Permutes(t, s) && Descending(t) && Unique(t)
  {
    t := [];
    assert s[..0] == [];
    for i := 0 to |s|
      invariant Permutes(t, s[..i]) && Descending(t) && Unique(t)
    {
      NewName(s, i, t);
      ghost var before := t;
      t := InsertByRemainder(t, s[i]);
      AddedNext(s, i, before, t);
    }
    assert s[..|s|] == s;
  }

  lemma NewName(s: seq<Allocation>, i: nat, t: seq<Allocation>)
    requires Unique(s) && i < |s| && multiset(t) == multiset(s[..i])
    ensures forall j :: 0 <= j < |t| ==> t[j].name != s[i].name
  {
    forall j | 0 <= j < |t| ensures t[j].name != s[i].name {
      assert t[j] in multiset(t);
      assert t[j] in s[..i];
    }
  }

  lemma InsertSums(t: seq<Allocation>, k: nat, x: Allocation)
    requires k <= |t|
    ensures var u := t[..k] + [x] + t[k..];
            Sum(Quotas(u)) == Sum(Quotas(t)) + x.quota as real && Sum(Remainders(u)) == Sum(Remainders(t)) + x.remainder
  {
    var u := t[..k] + [x] + t[k..];
    assert Quotas(u) == Quotas(t)[..k] + [x.quota as real] + Quotas(t)[k..];
    assert Remainders(u) == Remainders(t)[..k] + [x.remainder] + Remainders(t)[k..];
    SumInsert(Quotas(t), k, x.quota as real);
    SumInsert(Remainders(t), k, x.remainder);
  }

  /** What the floors leave over is the sum of the remainders. */
  lemma FloorsLeaveRemainders(start: seq<Allocation>, floored: seq<Allocation>, up: bool)
    requires |floored| == |start|
    requires forall k :: 0 <= k < |start| ==> start[k].quota == start[k].current && floored[k] == Floored(start[k], up)
    ensures up ==> Sum(Quotas(floored)) + Sum(Remainders(floored)) == Sum(Currents(start)) + Sum(Shares(start))
    ensures !up ==> Sum(Quotas(floored)) + Sum(Shares(start)) == Sum(Currents(start)) + Sum(Remainders(floored))
  {
    var n := |start|;
    if up {
      var all := seq(n, i requires 0 <= i < n => start[i].current as real + start[i].share);
      SumAdd(Quotas(floored), Remainders(floored), all);
      SumAdd(Currents(start), Shares(start), all);
    } else {
      var all := seq(n, i requires 0 <= i < n => start[i].current as real + floored[i].remainder);
      SumAdd(Quotas(floored), Shares(start), all);
      SumAdd(Currents(start), Remainders(floored), all);
    }
  }

  method ApplyFloors(start: seq<Allocation>, up: bool) returns (allocs: seq<Allocation>)
    ensures |allocs| == |start| && forall k :: 0 <= k < |start| ==> allocs[k] == Floored(start[k], up)
  {
    allocs := start;
    for i := 0 to |start|
      invariant |allocs| == |start|
      invariant forall k :: 0 <= k < i ==> allocs[k] == Floored(start[k], up)
      invariant forall k :: i <= k < |start| ==> allocs[k] == start[k]
    {
      var q := start[i].share.Floor;
      allocs := allocs[i := start[i].(quota := if up then start[i].quota + q else start[i].quota - q, remainder := start[i].share - q as real)];
    }
  }

  function OneMore(x: Allocation, up: bool): Allocation {
    x.(quota := if up then x.quota + 1 else x.quota - 1)
  }

  method MoveLeftover(sorted: seq<Allocation>, leftover: nat, up: bool) returns (allocs: seq<Allocation>)
    requires leftover <= |sorted|
    ensures |allocs| == |sorted|
    ensures forall k :: 0 <= k < |sorted| ==> allocs[k] == if k < leftover then OneMore(sorted[k], up) else sorted[k]
    ensures Sum(Quotas(allocs)) == Sum(Quotas(sorted)) + if up then leftover as real else -(leftover as real)
  {
    allocs := sorted;
    for i := 0 to leftover
      invariant |allocs| == |sorted|
      invariant forall k :: 0 <= k < |sorted| ==> allocs[k] == if k < i then OneMore(sorted[k], up) else sorted[k]
      invariant Sum(Quotas(allocs)) == Sum(Quotas(sorted)) + if up then i as real else -(i as real)
    {
      var quota := if up then allocs[i].quota + 1 else allocs[i].quota - 1;
      SumUpdate(Quotas(allocs), i, quota as real);
      assert Quotas(allocs[i := allocs[i].(quota := quota)]) == Quotas(allocs)[i := quota as real];
      allocs := allocs[i := allocs[i].(quota := quota)];
    }
  }

  /** The three largest-remainder passes of the scheduler: floors first, then one more for the largest remainders. */
  method RoundShares(start: seq<Allocation>, up: bool, target: int) returns (allocs: seq<Allocation>)
    requires Unique(start)
    requires forall k :: 0 <= k < |start| ==> start[k].quota == start[k].current && start[k].share >= 0.0
    requires target as real == if up then Sum(Currents(start)) + Sum(Shares(start)) else Sum(Currents(start)) - Sum(Shares(start))
    ensures Unique(allocs) && SameClusters(start, allocs)
    ensures Sum(Quotas(allocs)) == target as real
    ensures (forall k :: 0 <= k < |allocs| ==> Moved(allocs[k], up)) && LargestFirst(allocs, up)
  {
    var floored := ApplyFloors(start, up);
    var placed := TotalQuota(floored);
    var leftover := if up then target - placed else placed - target;
    KeepsBases(start, floored);
    var sorted := SortByRemainder(floored);
    SortedAreFloored(start, floored, sorted, up);
    LeftoverFits(start, floored, sorted, leftover, up);
    allocs := MoveLeftover(sorted, leftover, up);
    RoundingFollows(sorted, allocs, leftover, up);
  }

  /** What the floors leave over goes once around at most, and to positive remainders only. */
  lemma LeftoverFits(start: seq<Allocation>, floored: seq<Allocation>, sorted: seq<Allocation>, leftover: int, up: bool)
    requires |floored| == |start| && Permutes(sorted, floored) && Descending(sorted)
    requires forall k :: 0 <= k < |start| ==> start[k].quota == start[k].current && floored[k] == Floored(start[k], up)
    requires forall j :: 0 <= j < |sorted| ==> JustFloored(sorted[j], up)
    requires leftover as real == if up then Sum(Currents(start)) + Sum(Shares(start)) - Sum(Quotas(floored))
                                 else Sum(Quotas(floored)) - (Sum(Currents(start)) - Sum(Shares(start)))
    ensures 0 <= leftover <= |sorted| && forall k :: 0 <= k < leftover ==> sorted[k].remainder > 0.0
  {
    FloorsLeaveRemainders(start, floored, up);
    LeftoverIsPositive(Remainders(sorted), leftover);
    assert forall k :: 0 <= k < leftover ==> sorted[k].remainder == Remainders(sorted)[k];
  }

  /** What the move of the leftover makes of the floors, sorted by remainder. */
  lemma RoundingFollows(sorted: seq<Allocation>, allocs: seq<Allocation>, leftover: nat, up: bool)
    requires Unique(sorted) && Descending(sorted) && forall j :: 0 <= j < |sorted| ==> JustFloored(sorted[j], up)
    requires leftover <= |sorted| == |allocs| && forall i :: 0 <= i < leftover ==> sorted[i].remainder > 0.0
    requires forall k :: 0 <= k < |sorted| ==> allocs[k] == if k < leftover then OneMore(sorted[k], up) else sorted[k]
    ensures Unique(allocs) && Bases(allocs) == Bases(sorted)
    ensures (forall k :: 0 <= k < |allocs| ==> Moved(allocs[k], up)) && LargestFirst(allocs, up)
  {
    OneMoreIsStillRounded(sorted, allocs, leftover, up);
    LeftoverGoesToLargest(sorted, allocs, leftover, up);
    KeepsBases(sorted, allocs);
  }

  lemma KeepsBases(s: seq<Allocation>, t: seq<Allocation>)
    requires |s| == |t| && forall k :: 0 <= k < |s| ==> Base(t[k]) == Base(s[k])
    ensures Bases(t) == Bases(s) && (Unique(s) ==> Unique(t))
  {
    assert forall k :: 0 <= k < |s| ==> Base(t[k]) == Base(s[k]) && t[k].name == s[k].name;
  }

  lemma SortedAreFloored(start: seq<Allocation>, floored: seq<Allocation>, sorted: seq<Allocation>, up: bool)
    requires |floored| == |start| && multiset(sorted) == multiset(floored)
    requires forall k :: 0 <= k < |start| ==> start[k].quota == start[k].current && floored[k] == Floored(start[k], up)
    ensures forall j :: 0 <= j < |sorted| ==> JustFloored(sorted[j], up)
  {
    forall j | 0 <= j < |sorted| ensures JustFloored(sorted[j], up) {
      assert sorted[j] in multiset(floored);
    }
  }

  /** An allocation after its floor was applied. */
  predicate JustFloored(x: Allocation, up: bool) {
    && x.quota == (if up then x.current + x.share.Floor else x.current - x.share.Floor)
    && x.remainder == x.share - x.share.Floor as real
  }

  lemma OneMoreIsStillRounded(sorted: seq<Allocation>, allocs: seq<Allocation>, leftover: nat, up: bool)
    requires forall j :: 0 <= j < |sorted| ==> JustFloored(sorted[j], up)
    requires leftover <= |sorted| == |allocs| && forall i :: 0 <= i < leftover ==> sorted[i].remainder > 0.0
    requires forall k :: 0 <= k < |sorted| ==> allocs[k] == if k < leftover then OneMore(sorted[k], up) else sorted[k]
    ensures forall k :: 0 <= k < |allocs| ==> Moved(allocs[k], up) && Base(allocs[k]) == Base(sorted[k])
  {
    forall k | 0 <= k < |allocs| ensures Moved(allocs[k], up) && Base(allocs[k]) == Base(sorted[k]) {
      assert JustFloored(sorted[k], up);
    }
  }

  /** One more for the first of a list sorted by remainder is one more for the largest remainders. */
  lemma LeftoverGoesToLargest(sorted: seq<Allocation>, allocs: seq<Allocation>, leftover: nat, up: bool)
    requires Descending(sorted) && forall j :: 0 <= j < |sorted| ==> JustFloored(sorted[j], up)
    requires leftover <= |sorted| == |allocs|
    requires forall k :: 0 <= k < |sorted| ==> allocs[k] == if k < leftover then OneMore(sorted[k], up) else sorted[k]
    ensures LargestFirst(allocs, up)
  {
    forall j, k | 0 <= j < |allocs| && 0 <= k < |allocs|
      ensures Outranks(Change(allocs[j], up), allocs[j].share, Change(allocs[k], up), allocs[k].share)
    {
      assert JustFloored(sorted[j], up) && JustFloored(sorted[k], up);
      assert j < k ==> sorted[j].remainder >= sorted[k].remainder;
    }
  }

  // ------------------------------------------------- clusters with their counts

  /** The clusters with the replicas they ran before. */
  function Clusters(s: seq<Allocation>): (r: seq<(string, nat)>) {
    Pairs(Bases(s))
  }

  function Pairs(bases: seq<(string, nat, real, real)>): (r: seq<(string, nat)>) {
    seq(|bases|, i requires 0 <= i < |bases| => (bases[i].0, bases[i].1))
  }

  lemma SameClustersSameCurrents(s: seq<Allocation>, t: seq<Allocation>)
    requires SameClusters(s, t)
    ensures multiset(Clusters(s)) == multiset(Clusters(t))
  {
    PairsPermute(Bases(s), Bases(t));
  }

  /** The row of `s` that stands for row `k` of `t`. */
  lemma BaseIn(t: seq<Allocation>, s: seq<Allocation>, k: nat) returns (j: nat)
    requires SameClusters(s, t) && k < |t|
    ensures j < |s| && Base(s[j]) == Base(t[k])
  {
    assert Bases(t)[k] in multiset(Bases(s));
    j :| 0 <= j < |Bases(s)| && Bases(s)[j] == Bases(t)[k];
  }

  lemma TakeOut<T>(s: seq<T>, j: nat)
    requires j < |s|
    ensures multiset(s[..j] + s[j + 1..]) == multiset(s) - multiset{s[j]} && s[j] in multiset(s)
  {
    assert s == s[..j] + [s[j]] + s[j + 1..];
  }

  lemma PairsWithout(a: seq<(string, nat, real, real)>, j: nat)
    requires j < |a|
    ensures multiset(Pairs(a[..j] + a[j + 1..])) == multiset(Pairs(a)) - multiset{(a[j].0, a[j].1)}
    ensures (a[j].0, a[j].1) in multiset(Pairs(a))
  {
    assert Pairs(a[..j] + a[j + 1..]) == Pairs(a)[..j] + Pairs(a)[j + 1..];
    TakeOut(Pairs(a), j);
  }

  lemma RemoveBoth<T>(a: multiset<T>, b: multiset<T>, x: T)
    requires x in a && x in b && a - multiset{x} == b - multiset{x}
    ensures a == b
  {
    assert a == a - multiset{x} + multiset{x};
    assert b == b - multiset{x} + multiset{x};
  }

  /** Two lists whose rests agree in their pairs and that start with the same row agree in their pairs. */
  lemma PairsAgree(a: seq<(string, nat, real, real)>, b: seq<(string, nat, real, real)>, j: nat)
    requires a != [] && j < |b| && b[j] == a[0]
    requires multiset(Pairs(a[..0] + a[1..])) == multiset(Pairs(b[..j] + b[j + 1..]))
    ensures multiset(Pairs(a)) == multiset(Pairs(b))
  {
    PairsWithout(a, 0);
    PairsWithout(b, j);
    RemoveBoth(multiset(Pairs(a)), multiset(Pairs(b)), (a[0].0, a[0].1));
  }

  lemma {:induction false} PairsPermute(a: seq<(string, nat, real, real)>, b: seq<(string, nat, real, real)>)
    requires multiset(a) == multiset(b)
    ensures multiset(Pairs(a)) == multiset(Pairs(b))
    decreases |a|
  {
    assert |multiset(a)| == |a| == |b|;
    if a != [] {
      assert a[0] in multiset(b);
      var j :| 0 <= j < |b| && b[j] == a[0];
      TakeOut(a, 0);
      TakeOut(b, j);
      PairsPermute(a[..0] + a[1..], b[..j] + b[j + 1..]);
      PairsAgree(a, b, j);
    }
  }
}
