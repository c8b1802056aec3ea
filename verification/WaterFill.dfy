/**
  The scheduler's strategy for stateful sets, and the ordinals it keeps in place.
  Clusters stand in name order and own consecutive ranges of ordinals; a scale-up
  pours the new replicas in from the last cluster in use, a scale-down drains from
  the end.
*/
module WaterFill {
  import opened Prelude
  import opened Names
  import opened Placement

  /** The default capacity of a cluster, the largest 32-bit integer. */
  const UNBOUNDED: nat := 0x7fff_ffff

  // ------------------------------------------------------------------ counts

  function Sum(counts: seq<nat>): nat {
    if counts == [] then 0 else counts[0] + Sum(counts[1..])
  }

  lemma {:induction false} SumUpdate(counts: seq<nat>, k: nat, v: nat)
    requires k < |counts|
    ensures Sum(counts[k := v]) + counts[k] == Sum(counts) + v
  {
    if k > 0 {
      SumUpdate(counts[1..], k - 1, v);
      assert counts[k := v][1..] == counts[1..][k - 1 := v];
    } else {
      assert counts[0 := v][1..] == counts[1..];
    }
  }

  lemma {:induction false} SumZero(counts: seq<nat>)
    requires forall k :: 0 <= k < |counts| ==> counts[k] == 0
    ensures Sum(counts) == 0
  {
    if counts != [] {
      SumZero(counts[1..]);
    }
  }

  /** Termwise ordered counts have ordered sums, strictly so if one term is. */
  lemma {:induction false} SumMonotone(a: seq<nat>, b: seq<nat>, k: nat)
    requires |a| == |b| && k < |a| && forall i :: 0 <= i < |a| ==> a[i] <= b[i]
    ensures Sum(a) <= Sum(b) && (a[k] < b[k] ==> Sum(a) < Sum(b))
  {
    if |a| > 1 {
      SumMonotone(a[1..], b[1..], if k > 0 then k - 1 else 0);
    }
  }

  /** The entry of a Go map, zero for an absent key. */
  function Count(placement: map<string, nat>, name: string): nat {
    if name in placement then placement[name] else 0
  }

  function Counts(placement: map<string, nat>, order: seq<string>): (counts: seq<nat>)
    ensures |counts| == |order|
  {
    seq(|order|, i requires 0 <= i < |order| => Count(placement, order[i]))
  }

  lemma CountsUpdate(placement: map<string, nat>, order: seq<string>, k: nat, v: nat)
    requires Increasing(order) && k < |order|
    ensures Counts(placement[order[k] := v], order) == Counts(placement, order)[k := v]
    ensures Sum(Counts(placement[order[k] := v], order)) + Count(placement, order[k]) == Sum(Counts(placement, order)) + v
  {
    forall i | 0 <= i < |order| ensures order[i] == order[k] <==> i == k {
      PositionFollowsName(order, i, k);
    }
    SumUpdate(Counts(placement, order), k, v);
  }

  // ---------------------------------------------------------------- ordinals

  /** The cluster that runs ordinal `o`, for clusters in name order with these counts. */
  function OwnerIn(order: seq<string>, counts: seq<nat>, o: nat): Option<string>
    requires |order| == |counts|
  {
    if order == [] then None
    else if o < counts[0] then Some(order[0])
    else OwnerIn(order[1..], counts[1..], o - counts[0])
  }

  function Owner(t: seq<ClusterTopology>, o: nat): Option<string> {
    if t == [] then None
    else if o < t[0].replicas then Some(t[0].name)
    else Owner(t[1..], o - t[0].replicas)
  }

  /** The first ordinal of every cluster, as the application controller adds them up. */
  method OrdinalStarts(topology: seq<ClusterTopology>) returns (starts: seq<nat>)
    ensures |starts| == |topology| && forall i :: 0 <= i < |topology| ==> starts[i] == Total(topology[..i])
  {
    starts := [];
    var cumulative := 0;
    for i := 0 to |topology|
      invariant |starts| == i && cumulative == Total(topology[..i])
      invariant forall k :: 0 <= k < i ==> starts[k] == Total(topology[..k])
    {
      TotalNext(topology, i);
      starts := starts + [cumulative];
      cumulative := cumulative + topology[i].replicas;
    }
  }

  /** An ordinal belongs to a cluster iff it falls in the range that starts at the cluster's prefix sum. */
  lemma {:induction false} OwnerIsRange(t: seq<ClusterTopology>, i: nat, o: nat)
    requires DistinctNames(t) && i < |t|
    ensures Owner(t, o) == Some(t[i].name) <==> Total(t[..i]) <= o < Total(t[..i]) + t[i].replicas
  {
    if i == 0 {
      assert t[..0] == [];
      if o >= t[0].replicas {
        OwnerIsListed(t[1..], o - t[0].replicas);
      }
    } else {
      TotalConcat([t[0]], t[1..i]);
      assert [t[0]] + t[1..i] == t[..i] && [t[0]][..0] == [];
      assert Total([t[0]]) == t[0].replicas;
      assert t[1..][..i - 1] == t[1..i];
      if o >= t[0].replicas {
        OwnerIsRange(t[1..], i - 1, o - t[0].replicas);
      }
    }
  }

  lemma {:induction false} OwnerIsListed(t: seq<ClusterTopology>, o: nat)
    ensures Owner(t, o).Some? ==> exists i :: 0 <= i < |t| && t[i].name == Owner(t, o).value
  {
    if t != [] && o >= t[0].replicas {
      OwnerIsListed(t[1..], o - t[0].replicas);
      if Owner(t, o).Some? {
        var i :| 0 <= i < |t[1..]| && t[1..][i].name == Owner(t, o).value;
        assert t[i + 1].name == Owner(t, o).value;
      }
    }
  }

  // ------------------------------------------------------- counts as a placement

  /** The clusters with replicas, in order. */
  function Compact(order: seq<string>, counts: seq<nat>): seq<ClusterTopology>
    requires |order| == |counts|
  {
    if order == [] then []
    else (if counts[0] > 0 then [ClusterTopology(order[0], counts[0])] else []) + Compact(order[1..], counts[1..])
  }

  lemma {:induction false} CompactNames(order: seq<string>, counts: seq<nat>)
    requires |order| == |counts|
    ensures forall i :: 0 <= i < |Compact(order, counts)| ==>
      Compact(order, counts)[i].name in order && Compact(order, counts)[i].replicas > 0
  {
    if order != [] {
      CompactNames(order[1..], counts[1..]);
    }
  }

  lemma {:induction false} CompactIsCanonical(order: seq<string>, counts: seq<nat>)
    requires |order| == |counts| && Increasing(order)
    ensures Canonical(Compact(order, counts))
  {
    CompactNames(order, counts);
    if order != [] {
      var rest := Compact(order[1..], counts[1..]);
      CompactIsCanonical(order[1..], counts[1..]);
      CompactNames(order[1..], counts[1..]);
      forall j | 0 <= j < |rest| ensures Less(order[0], NamesOf(rest)[j]) {
        var k :| 1 <= k < |order| && order[k] == rest[j].name;
      }
      if counts[0] > 0 {
        assert NamesOf(Compact(order, counts)) == [order[0]] + NamesOf(rest);
      } else {
        assert Compact(order, counts) == rest;
      }
    }
  }

  lemma {:induction false} CompactTotal(order: seq<string>, counts: seq<nat>)
    requires |order| == |counts|
    ensures Total(Compact(order, counts)) == Sum(counts)
  {
    if order != [] {
      CompactTotal(order[1..], counts[1..]);
      var head := if counts[0] > 0 then [ClusterTopology(order[0], counts[0])] else [];
      TotalConcat(head, Compact(order[1..], counts[1..]));
      assert counts[0] > 0 ==> head[..0] == [];
      assert Total(head) == counts[0];
    }
  }

  lemma {:induction false} CompactOwner(order: seq<string>, counts: seq<nat>, o: nat)
    requires |order| == |counts|
    ensures Owner(Compact(order, counts), o) == OwnerIn(order, counts, o)
  {
    if order != [] {
      var rest := Compact(order[1..], counts[1..]);
      if counts[0] > 0 {
        assert Compact(order, counts)[1..] == rest;
      } else {
        assert Compact(order, counts) == rest;
      }
      if o >= counts[0] {
        CompactOwner(order[1..], counts[1..], o - counts[0]);
      }
    }
  }

  lemma {:induction false} CompactReplicas(order: seq<string>, counts: seq<nat>, n: string)
    requires |order| == |counts| && Increasing(order)
    ensures n !in order ==> Replicas(Compact(order, counts), n) == 0
    ensures forall k :: 0 <= k < |order| && order[k] == n ==> Replicas(Compact(order, counts), n) == counts[k]
  {
    var t := Compact(order, counts);
    CompactIsCanonical(order, counts);
    CanonicalIsDistinct(t);
    CompactNames(order, counts);
    if n !in order {
      ReplicasAbsent(t, n);
    }
    forall k | 0 <= k < |order| && order[k] == n ensures Replicas(t, n) == counts[k] {
      CompactAt(order, counts, k);
      if counts[k] > 0 {
        var i :| 0 <= i < |t| && t[i] == ClusterTopology(n, counts[k]);
        ReplicasAt(t, i);
      } else {
        ReplicasAbsent(t, n);
      }
    }
  }

  lemma {:induction false} CompactAt(order: seq<string>, counts: seq<nat>, k: nat)
    requires |order| == |counts| && Increasing(order) && k < |order|
    ensures counts[k] > 0 ==> ClusterTopology(order[k], counts[k]) in Compact(order, counts)
    ensures counts[k] == 0 ==> forall i :: 0 <= i < |Compact(order, counts)| ==> Compact(order, counts)[i].name != order[k]
  {
    var rest := Compact(order[1..], counts[1..]);
    CompactNames(order[1..], counts[1..]);
    if k == 0 {
      forall j | 0 <= j < |rest| ensures rest[j].name != order[0] {
        var m :| 1 <= m < |order| && order[m] == rest[j].name;
        LessIsTotal(order[0], order[m]);
      }
    } else {
      CompactAt(order[1..], counts[1..], k - 1);
      LessIsTotal(order[0], order[k]);
    }
  }

  /** A canonical placement is the compact form of its own counts over any list that names its clusters. */
  lemma CanonicalIsCompact(t: seq<ClusterTopology>, order: seq<string>, counts: seq<nat>)
    requires Canonical(t) && Increasing(order) && |counts| == |order|
    requires forall n :: n in NamesOf(t) ==> n in order
    requires forall k :: 0 <= k < |order| ==> counts[k] == Replicas(t, order[k])
    ensures t == Compact(order, counts)
  {
    CompactIsCanonical(order, counts);
    forall n ensures Replicas(t, n) == Replicas(Compact(order, counts), n) {
      CompactReplicas(order, counts, n);
      CanonicalNames(t, n);
      if n in order {
        var k :| 0 <= k < |order| && order[k] == n;
      }
    }
    CanonicalIsUnique(t, Compact(order, counts));
  }

  // -------------------------------------------------------- what keeps ordinals

  /** Up to cluster `j` the counts agree, and the smaller of the two ends there. */
  predicate PivotsAt(a: seq<nat>, b: seq<nat>, j: nat) {
    && |a| == |b| && j < |a|
    && (forall k :: 0 <= k < j ==> a[k] == b[k])
    && a[j] <= b[j]
    && (forall k :: j < k < |a| ==> a[k] == 0)
  }

  lemma {:induction false} PivotKeepsOwner(order: seq<string>, a: seq<nat>, b: seq<nat>, j: nat, o: nat)
    requires |order| == |a| && PivotsAt(a, b, j) && o < Sum(a)
    ensures OwnerIn(order, a, o) == OwnerIn(order, b, o)
  {
    if j == 0 {
      SumZero(a[1..]);
    } else if o >= a[0] {
      PivotKeepsOwner(order[1..], a[1..], b[1..], j - 1, o - a[0]);
    }
  }

  /** Every ordinal that both placements run stays on its cluster. */
  ghost predicate KeepsOrdinals(before: seq<ClusterTopology>, after: seq<ClusterTopology>) {
    forall o: nat :: o < Total(before) && o < Total(after) ==> Owner(before, o) == Owner(after, o)
  }

  lemma PivotKeepsOrdinals(order: seq<string>, a: seq<nat>, b: seq<nat>, j: nat)
    requires |order| == |a| && PivotsAt(a, b, j)
    ensures KeepsOrdinals(Compact(order, a), Compact(order, b)) && KeepsOrdinals(Compact(order, b), Compact(order, a))
  {
    CompactTotal(order, a);
    CompactTotal(order, b);
    forall o: nat | o < Sum(a) ensures Owner(Compact(order, a), o) == Owner(Compact(order, b), o) {
      PivotKeepsOwner(order, a, b, j, o);
      CompactOwner(order, a, o);
      CompactOwner(order, b, o);
    }
    SumMonotoneIfPivot(a, b, j);
  }

  lemma SumMonotoneIfPivot(a: seq<nat>, b: seq<nat>, j: nat)
    requires PivotsAt(a, b, j)
    ensures Sum(a) <= Sum(b)
  {
    SumMonotone(a, b, j);
  }

  // ------------------------------------------------------------ pour and drain

  /** The clusters from `start` up to, not including, `end` are at their capacity. */
  ghost predicate Full(counts: seq<nat>, caps: seq<nat>, start: nat, end: nat)
    requires |counts| == |caps|
  {
    forall k :: start <= k < end && k < |counts| ==> counts[k] >= caps[k]
  }

  ghost predicate EmptyAfter(counts: seq<nat>, k: nat) {
    forall j :: k < j < |counts| ==> counts[j] == 0
  }

  /**
    Replicas poured in from cluster `start` on: nothing is lost, a cluster before `start`
    gets nothing, one after `start` only when every cluster from `start` to it is full,
    and only the last one may be filled beyond its capacity.
  */
  ghost predicate Poured(before: seq<nat>, after: seq<nat>, caps: seq<nat>, start: nat) {
    && |before| == |after| == |caps|
    && (forall k :: 0 <= k < |before| ==> before[k] <= after[k])
    && (forall k :: 0 <= k < |before| && after[k] > before[k] ==> start <= k)
    && (forall j :: 0 <= j < |before| && after[j] > before[j] ==> Full(after, caps, start, j))
    && (forall k :: 0 <= k < |before| && k != |before| - 1 && after[k] > before[k] ==> after[k] <= caps[k])
    && (Overflows(before, after, caps) ==> Full(after, caps, start, |before|))
  }

  /** The last cluster was filled beyond its capacity. */
  predicate Overflows(before: seq<nat>, after: seq<nat>, caps: seq<nat>)
    requires |before| == |after| == |caps|
  {
    var last := |before| - 1;
    last >= 0 && after[last] > before[last] && after[last] > caps[last]
  }

  /** Replicas drained from the end: a cluster loses some only when every later one is empty. */
  ghost predicate Drained(before: seq<nat>, after: seq<nat>) {
    && |before| == |after|
    && (forall k :: 0 <= k < |before| ==> after[k] <= before[k])
    && (forall k :: 0 <= k < |before| && after[k] < before[k] ==> EmptyAfter(after, k))
  }

  /** The rules of pouring leave no choice: the total decides every count. */
  lemma PouringIsDetermined(before: seq<nat>, a: seq<nat>, b: seq<nat>, caps: seq<nat>, start: nat)
    requires Poured(before, a, caps, start) && Poured(before, b, caps, start) && Sum(a) == Sum(b)
    ensures a == b
  {
    var k := 0;
    while k < |a| && a[k] == b[k]
      invariant k <= |a| && a[..k] == b[..k]
    {
      k := k + 1;
    }
    if k < |a| {
      if a[k] < b[k] {
        LessPoured(before, a, b, caps, start, k);
      } else {
        LessPoured(before, b, a, caps, start, k);
      }
    }
  }

  lemma LessPoured(before: seq<nat>, a: seq<nat>, b: seq<nat>, caps: seq<nat>, start: nat, k: nat)
    requires Poured(before, a, caps, start) && Poured(before, b, caps, start)
    requires k < |a| && a[..k] == b[..k] && a[k] < b[k]
    ensures Sum(a) < Sum(b)
  {
    assert start <= k;
    forall m | 0 <= m < |a| ensures a[m] <= b[m] {
      if m < k {
        assert a[m] == a[..k][m] == b[..k][m] == b[m];
      } else if m > k {
        assert b[k] <= caps[k];
      }
    }
    SumMonotone(a, b, k);
  }

  lemma DrainingIsDetermined(before: seq<nat>, a: seq<nat>, b: seq<nat>)
    requires Drained(before, a) && Drained(before, b) && Sum(a) == Sum(b)
    ensures a == b
  {
    var k := 0;
    while k < |a| && a[k] == b[k]
      invariant k <= |a| && a[..k] == b[..k]
    {
      k := k + 1;
    }
    if k < |a| {
      if a[k] < b[k] {
        LessDrained(before, a, b, k);
      } else {
        LessDrained(before, b, a, k);
      }
    }
  }

  lemma LessDrained(before: seq<nat>, a: seq<nat>, b: seq<nat>, k: nat)
    requires Drained(before, a) && Drained(before, b)
    requires k < |a| && a[..k] == b[..k] && a[k] < b[k]
    ensures Sum(a) < Sum(b)
  {
    forall m | 0 <= m < |a| ensures a[m] <= b[m] {
      if m < k {
        assert a[m] == a[..k][m] == b[..k][m] == b[m];
      }
    }
    SumMonotone(a, b, k);
  }

  /** The last cluster in use, or the first one when none is. */
  ghost predicate LastInUse(counts: seq<nat>, start: nat) {
    && (start < |counts| || start == 0)
    && (forall k :: start < k < |counts| ==> counts[k] == 0)
    && (start > 0 ==> counts[start] > 0)
  }

  lemma PouringKeepsOrdinals(order: seq<string>, before: seq<nat>, after: seq<nat>, caps: seq<nat>, start: nat)
    requires |order| == |before| && Poured(before, after, caps, start) && LastInUse(before, start)
    ensures KeepsOrdinals(Compact(order, before), Compact(order, after))
  {
    if order != [] {
      assert PivotsAt(before, after, start);
      PivotKeepsOrdinals(order, before, after, start);
    }
  }

  lemma DrainingKeepsOrdinals(order: seq<string>, before: seq<nat>, after: seq<nat>)
    requires |order| == |before| && Drained(before, after)
    ensures KeepsOrdinals(Compact(order, before), Compact(order, after))
  {
    var j := 0;
    while j < |before| && after[j] == before[j]
      invariant j <= |before| && forall k :: 0 <= k < j ==> after[k] == before[k]
    {
      j := j + 1;
    }
    if j < |before| {
      assert PivotsAt(after, before, j);
      PivotKeepsOrdinals(order, after, before, j);
    } else {
      assert after == before;
    }
  }

  // ----------------------------------------------------------------- strategy

  /** The capacity used for a cluster: computed, unlimited, or frozen when it is neither known nor feasible. */
  function CapacityOf(name: string, current: nat, computed: map<string, int>, scores: map<string, nat>): nat {
    if name in computed then if 0 <= computed[name] < UNBOUNDED then computed[name] else UNBOUNDED
    else if name in scores then UNBOUNDED
    else current
  }

  function Capacities(order: seq<string>, counts: seq<nat>, computed: map<string, int>, scores: map<string, nat>): (caps: seq<nat>)
    requires |order| == |counts|
    ensures |caps| == |order|
  {
    seq(|order|, i requires 0 <= i < |order| => CapacityOf(order[i], counts[i], computed, scores))
  }

  /**
    A scale-up in terms of the computed capacities and the scores: clusters before `start`
    get nothing; short of the last one, a computed capacity below 2147483647 bounds a cluster
    that grows, and one neither computed nor feasible keeps its count; a cluster grows only
    once every earlier one from `start` on holds what was computed for it, or 2147483647 if
    nothing below that was and it is feasible.
  */
  ghost predicate FillsInOrder(order: seq<string>, before: seq<nat>, after: seq<nat>, start: nat, computed: map<string, int>, scores: map<string, nat>)
    requires |order| == |before| == |after|
  {
    && (forall k :: 0 <= k < |order| ==> before[k] <= after[k])
    && (forall k :: 0 <= k < start && k < |order| ==> after[k] == before[k])
    && (forall k :: 0 <= k < |order| - 1 && order[k] in computed && 0 <= computed[order[k]] < 2147483647 ==>
          after[k] == before[k] || after[k] <= computed[order[k]])
    && (forall k :: 0 <= k < |order| - 1 && order[k] !in computed && order[k] !in scores ==> after[k] == before[k])
    && (forall j, k :: start <= j < k < |order| && after[k] > before[k] ==>
          if order[j] in computed && 0 <= computed[order[j]] < 2147483647 then after[j] >= computed[order[j]]
          else order[j] in computed || order[j] in scores ==> after[j] >= 2147483647)
  }

  /** Pouring with the capacities that are used is filling in order. */
  lemma PouredFillsInOrder(order: seq<string>, before: seq<nat>, after: seq<nat>, start: nat, computed: map<string, int>, scores: map<string, nat>)
    requires |order| == |before| && Poured(before, after, Capacities(order, before, computed, scores), start)
    ensures FillsInOrder(order, before, after, start, computed, scores)
  {
    var caps := Capacities(order, before, computed, scores);
    forall j, k | start <= j < k < |order| && after[k] > before[k]
      ensures after[j] >= caps[j]
    {
      assert Full(after, caps, start, k);
    }
  }

  method StartIndex(order: seq<string>, placement: map<string, nat>) returns (start: nat)
    ensures LastInUse(Counts(placement, order), start)
  {
    start := 0;
    for i := 0 to |order|
      invariant start < i || start == 0
      invariant forall k :: start < k < i ==> Count(placement, order[k]) == 0
      invariant start > 0 ==> Count(placement, order[start]) > 0
    {
      if Count(placement, order[i]) > 0 {
        start := i;
      }
    }
  }

  /** What cluster `i` takes of the replicas left: as many as there is room for. */
  function Take(left: nat, cap: nat, current: nat): nat {
    var room := if cap < current then 0 else cap - current;
    if left > room then room else left
  }

  method PourOne(order: seq<string>, placement: map<string, nat>, i: nat, left: nat, computed: map<string, int>, scores: map<string, nat>)
    returns (poured: map<string, nat>, take: nat)
    requires Increasing(order) && i < |order|
    ensures var now := Counts(placement, order);
            && take == Take(left, CapacityOf(order[i], now[i], computed, scores), now[i])
            && Counts(poured, order) == now[i := now[i] + take]
            && Sum(Counts(poured, order)) == Sum(now) + take
  {
    var current := Count(placement, order[i]);
    var cap := CapacityOf(order[i], current, computed, scores);
    var room := if cap < current then 0 else cap - current;
    take := left;
    if take > room {
      take := room;
    }
    CountsUpdate(placement, order, i, current + take);
    poured := placement[order[i] := current + take];
  }

  /** Fill the clusters from `start` on; what does not fit is left. */
  method Pour(order: seq<string>, existing: map<string, nat>, needed: nat, start: nat, computed: map<string, int>, scores: map<string, nat>)
    returns (placement: map<string, nat>, left: nat)
    requires Increasing(order) && (start < |order| || order == [])
    ensures var before, now := Counts(existing, order), Counts(placement, order);
            && Filling(before, now, Capacities(order, before, computed, scores), start, |order|, left)
            && Sum(now) + left == Sum(before) + needed
  {
    ghost var before := Counts(existing, order);
    ghost var now := before;
    ghost var caps := Capacities(order, before, computed, scores);
    placement := existing;
    left := needed;
    var i := start;
    while i < |order| && left > 0
      invariant start <= i && (i <= |order| || order == [])
      invariant now == Counts(placement, order) && |now| == |before|
      invariant Filling(before, now, caps, start, i, left)
      invariant Sum(now) + left == Sum(before) + needed
    {
      var take;
      placement, take := PourOne(order, placement, i, left, computed, scores);
      FillingNext(before, now, caps, start, i, left, CapacityOf(order[i], now[i], computed, scores), take);
      now := now[i := now[i] + take];
      left := left - take;
      i := i + 1;
    }
  }

  /** The overflow goes on the last cluster. */
  method Overflow(order: seq<string>, placement: map<string, nat>, left: nat) returns (dumped: map<string, nat>)
    requires Increasing(order) && order != []
    ensures var last, now := |order| - 1, Counts(placement, order);
            && Counts(dumped, order) == now[last := now[last] + left]
            && Sum(Counts(dumped, order)) == Sum(now) + left
  {
    var last := |order| - 1;
    CountsUpdate(placement, order, last, Count(placement, order[last]) + left);
    dumped := placement[order[last] := Count(placement, order[last]) + left];
  }

  /** A scale-up from cluster `start` on. */
  method PourIn(order: seq<string>, existing: map<string, nat>, needed: nat, start: nat, computed: map<string, int>, scores: map<string, nat>)
    returns (placement: map<string, nat>)
    requires Increasing(order) && (start < |order| || order == [])
    ensures Poured(Counts(existing, order), Counts(placement, order), Capacities(order, Counts(existing, order), computed, scores), start)
    ensures order != [] ==> Sum(Counts(placement, order)) == Sum(Counts(existing, order)) + needed
    ensures FillsInOrder(order, Counts(existing, order), Counts(placement, order), start, computed, scores)
  {
    var left;
    placement, left := Pour(order, existing, needed, start, computed, scores);
    ghost var before, filled := Counts(existing, order), Counts(placement, order);
    if left > 0 && |order| > 0 {
      placement := Overflow(order, placement, left);
    }
    PouringEnds(order, before, filled, Counts(placement, order), start, left, computed, scores);
  }

  /** What the loop and the overflow leave behind follows the rules of pouring. */
  lemma PouringEnds(order: seq<string>, before: seq<nat>, filled: seq<nat>, after: seq<nat>, start: nat, left: nat,
                    computed: map<string, int>, scores: map<string, nat>)
    requires |order| == |before| == |filled| && (start < |order| || order == [])
    requires Filling(before, filled, Capacities(order, before, computed, scores), start, |order|, left)
    requires after == if left > 0 && order != [] then filled[|order| - 1 := filled[|order| - 1] + left] else filled
    ensures Poured(before, after, Capacities(order, before, computed, scores), start)
    ensures FillsInOrder(order, before, after, start, computed, scores)
  {
    FilledIsPoured(before, filled, Capacities(order, before, computed, scores), start, left);
    PouredFillsInOrder(order, before, after, start, computed, scores);
  }

  lemma FilledIsPoured(before: seq<nat>, now: seq<nat>, caps: seq<nat>, start: nat, left: nat)
    requires Filling(before, now, caps, start, |before|, left) && (start < |before| || before == [])
    ensures left == 0 || before == [] ==> Poured(before, now, caps, start)
    ensures left > 0 && before != [] ==> Poured(before, now[|before| - 1 := now[|before| - 1] + left], caps, start)
  {
  }

  /** The pouring loop at cluster `i`: full so far while replicas are left, untouched from `i` on. */
  ghost predicate Filling(before: seq<nat>, now: seq<nat>, caps: seq<nat>, start: nat, i: nat, left: nat) {
    && |before| == |now| == |caps|
    && (forall k :: 0 <= k < |before| ==> before[k] <= now[k])
    && (forall k :: 0 <= k < |before| && now[k] > before[k] ==> start <= k < i && now[k] <= caps[k])
    && (left > 0 ==> Full(now, caps, start, i))
    && (forall j :: 0 <= j < |before| && now[j] > before[j] ==> Full(now, caps, start, j))
  }

  lemma FillingNext(before: seq<nat>, now: seq<nat>, caps: seq<nat>, start: nat, i: nat, left: nat, cap: nat, take: nat)
    requires start <= i < |before| && Filling(before, now, caps, start, i, left) && left > 0
    requires now[i] == before[i] ==> cap == caps[i]
    requires take == Take(left, cap, now[i])
    ensures Filling(before, now[i := now[i] + take], caps, start, i + 1, left - take)
  {
  }

  /** Cluster `i` gives up as many replicas as are still to go, or all it has. */
  method DrainOne(order: seq<string>, placement: map<string, nat>, i: nat, left: nat) returns (drained: map<string, nat>, drop: nat)
    requires Increasing(order) && i < |order|
    ensures var now := Counts(placement, order);
            && drop == (if left > now[i] then now[i] else left)
            && Counts(drained, order) == now[i := now[i] - drop]
            && Sum(Counts(drained, order)) + drop == Sum(now)
  {
    drained, drop := placement, 0;
    var current := Count(placement, order[i]);
    if current != 0 {
      drop := if left > current then current else left;
      CountsUpdate(placement, order, i, current - drop);
      drained := placement[order[i] := current - drop];
    }
  }

  lemma DrainingNext(before: seq<nat>, now: seq<nat>, i: nat, left: nat, drop: nat)
    requires Draining(before, now, i + 1, left) && left > 0 && i < |before| && drop == if left > now[i] then now[i] else left
    ensures Draining(before, now[i := now[i] - drop], i, left - drop)
  {
  }

  method DrainOut(order: seq<string>, existing: map<string, nat>, remove: nat) returns (placement: map<string, nat>)
    requires Increasing(order) && remove <= Sum(Counts(existing, order))
    ensures Drained(Counts(existing, order), Counts(placement, order))
    ensures Sum(Counts(placement, order)) + remove == Sum(Counts(existing, order))
  {
    ghost var before := Counts(existing, order);
    placement := existing;
    var left: nat := remove;
    var i := |order|;
    while i > 0 && left > 0
      invariant 0 <= i <= |order|
      invariant Draining(before, Counts(placement, order), i, left)
      invariant Sum(Counts(placement, order)) + remove == Sum(before) + left
    {
      i := i - 1;
      ghost var now := Counts(placement, order);
      var drop;
      placement, drop := DrainOne(order, placement, i, left);
      DrainingNext(before, now, i, left, drop);
      left := left - drop;
    }
    if left > 0 {
      SumZero(Counts(placement, order));
    }
  }

  ghost predicate Draining(before: seq<nat>, now: seq<nat>, i: nat, left: nat) {
    && |before| == |now|
    && (forall k :: 0 <= k < |before| ==> now[k] <= before[k])
    && (forall k :: 0 <= k < i && k < |before| ==> now[k] == before[k])
    && (left > 0 ==> forall k :: i <= k < |before| ==> now[k] == 0)
    && (forall k :: 0 <= k < |before| && now[k] < before[k] ==> EmptyAfter(now, k))
  }

  method Build(order: seq<string>, placement: map<string, nat>) returns (result: seq<ClusterTopology>)
    ensures result == Compact(order, Counts(placement, order))
  {
    result := [];
    for i := 0 to |order|
      invariant result + Compact(order[i..], Counts(placement, order)[i..]) == Compact(order, Counts(placement, order))
    {
      var count := Count(placement, order[i]);
      assert Counts(placement, order)[i..][1..] == Counts(placement, order)[i + 1..] && order[i..][1..] == order[i + 1..];
      if count > 0 {
        result := result + [ClusterTopology(order[i], count)];
      }
    }
  }

  /** The counts a placement gives to the listed clusters. */
  function CountsOf(t: seq<ClusterTopology>, order: seq<string>): (counts: seq<nat>)
    ensures |counts| == |order|
  {
    seq(|order|, i requires 0 <= i < |order| => Replicas(t, order[i]))
  }

  /** A list that names every cluster of the placement accounts for its total. */
  lemma {:induction false} CountsAddUp(t: seq<ClusterTopology>, order: seq<string>)
    requires DistinctNames(t) && Increasing(order) && forall i :: 0 <= i < |t| ==> t[i].name in order
    ensures Sum(CountsOf(t, order)) == Total(t)
  {
    if t == [] {
      SumZero(CountsOf(t, order));
    } else {
      var last, rest := t[|t| - 1], t[..|t| - 1];
      var k :| 0 <= k < |order| && order[k] == last.name;
      ReplicasAbsent(rest, last.name);
      assert forall i :: 0 <= i < |rest| ==> rest[i] == t[i];
      CountsAddUp(rest, order);
      forall i | 0 <= i < |order| ensures order[i] == order[k] <==> i == k {
        PositionFollowsName(order, i, k);
      }
      assert CountsOf(t, order) == CountsOf(rest, order)[k := last.replicas];
      SumUpdate(CountsOf(rest, order), k, last.replicas);
    }
  }

  lemma PlacementCounts(t: seq<ClusterTopology>, placement: map<string, nat>, order: seq<string>)
    requires DistinctNames(t) && Increasing(order)
    requires forall n :: n in placement <==> n in NamesOf(t)
    requires forall n :: n in placement ==> placement[n] == Replicas(t, n)
    requires forall n :: n in placement ==> n in order
    ensures Counts(placement, order) == CountsOf(t, order) && Sum(CountsOf(t, order)) == Total(t)
    ensures Canonical(t) ==> t == Compact(order, CountsOf(t, order))
  {
    assert forall i :: 0 <= i < |t| ==> NamesOf(t)[i] == t[i].name;
    forall k | 0 <= k < |order| ensures Count(placement, order[k]) == Replicas(t, order[k]) {
      if order[k] !in placement {
        assert forall i :: 0 <= i < |t| ==> NamesOf(t)[i] in NamesOf(t);
        ReplicasAbsent(t, order[k]);
      }
    }
    forall i | 0 <= i < |t| ensures t[i].name in order {
      assert NamesOf(t)[i] in NamesOf(t);
    }
    CountsAddUp(t, order);
    if Canonical(t) {
      CanonicalIsCompact(t, order, CountsOf(t, order));
    }
  }

  /** A compact placement has exactly the counts it was built from. */
  lemma CompactCounts(order: seq<string>, counts: seq<nat>)
    requires Increasing(order) && |counts| == |order|
    ensures CountsOf(Compact(order, counts), order) == counts
    ensures Canonical(Compact(order, counts)) && Total(Compact(order, counts)) == Sum(counts)
  {
    forall k | 0 <= k < |order| ensures Replicas(Compact(order, counts), order[k]) == counts[k] {
      CompactReplicas(order, counts, order[k]);
    }
    CompactIsCanonical(order, counts);
    CompactTotal(order, counts);
  }

  /** The clusters of the placement and the feasible ones, in name order. */
  ghost predicate ListsAll(order: seq<string>, topology: seq<ClusterTopology>, scores: map<string, nat>) {
    Increasing(order) && forall n :: n in order <==> n in NamesOf(topology) || n in scores
  }

  /** The rules one rescale follows, for clusters `order` with capacities `caps`. */
  ghost predicate Follows(before: seq<nat>, after: seq<nat>, caps: seq<nat>, start: nat)
    requires |before| == |after| == |caps|
  {
    if Sum(after) > Sum(before) then LastInUse(before, start) && Poured(before, after, caps, start)
    else if Sum(after) < Sum(before) then Drained(before, after)
    else before == after
  }

  ghost predicate RescaledOver(t: seq<ClusterTopology>, u: seq<ClusterTopology>, order: seq<string>, caps: seq<nat>, start: nat) {
    && Increasing(order) && |caps| == |order|
    && (forall n :: n in NamesOf(t) || n in NamesOf(u) ==> n in order)
    && Follows(CountsOf(t, order), CountsOf(u, order), caps, start)
  }

  /** One placement may follow the other in one rescale, with some clusters, capacities and target. */
  ghost predicate Rescaled(t: seq<ClusterTopology>, u: seq<ClusterTopology>) {
    Canonical(t) && Canonical(u) && exists order, caps, start :: RescaledOver(t, u, order, caps, start)
  }

  lemma RescaleKeepsOrdinals(t: seq<ClusterTopology>, u: seq<ClusterTopology>)
    requires Rescaled(t, u)
    ensures KeepsOrdinals(t, u)
  {
    var order, caps, start :| RescaledOver(t, u, order, caps, start);
    var before, after := CountsOf(t, order), CountsOf(u, order);
    CanonicalIsCompact(t, order, before);
    CanonicalIsCompact(u, order, after);
    if Sum(after) > Sum(before) {
      PouringKeepsOrdinals(order, before, after, caps, start);
    } else if Sum(after) < Sum(before) {
      DrainingKeepsOrdinals(order, before, after);
    }
  }

  /**
    Over a run of rescales with any capacities, feasible clusters and targets, an ordinal that
    every placement from `i` to `j` runs has one owner all along: it moves to another cluster
    only if it was removed in between.
  */
  lemma {:induction false} OrdinalMovesOnlyIfRemoved(run: seq<seq<ClusterTopology>>, i: nat, j: nat, o: nat)
    requires i <= j < |run|
    requires forall k :: i <= k < j ==> Rescaled(run[k], run[k + 1])
    requires forall k :: i <= k <= j ==> o < Total(run[k])
    ensures Owner(run[i], o) == Owner(run[j], o)
  {
    if i < j {
      OrdinalMovesOnlyIfRemoved(run, i, j - 1, o);
      assert Rescaled(run[j - 1], run[j - 1 + 1]);
      RescaleKeepsOrdinals(run[j - 1], run[j]);
    }
  }

  /**
    One rescale. The target is met whenever there is a cluster at all, and the counts follow
    the rules of pouring from the last cluster in use or of draining from the end.
  */
  method SelectClustersStatefulSetWaterfill(topology: seq<ClusterTopology>, scores: map<string, nat>, computed: map<string, int>, total: nat)
    returns (result: seq<ClusterTopology>, ghost order: seq<string>, ghost start: nat)
    requires DistinctNames(topology)
    ensures Canonical(result) && ListsAll(order, topology, scores)
    ensures topology != [] || scores != map[] || total == 0 ==> Total(result) == total
    ensures Follows(CountsOf(topology, order), CountsOf(result, order), Capacities(order, CountsOf(topology, order), computed, scores), start)
    ensures total > Total(topology) ==> FillsInOrder(order, CountsOf(topology, order), CountsOf(result, order), start, computed, scores)
    ensures Canonical(topology) ==> Rescaled(topology, result)
  {
    var existing, currentTotal := Gather(topology);
    var clusters := Sorted(scores.Keys + existing.Keys);
    PlacementCounts(topology, existing, clusters);
    assert topology != [] ==> NamesOf(topology)[0] in NamesOf(topology);
    assert topology != [] || scores != map[] ==> clusters != [];
    var placement;
    placement, start := Rescale(clusters, existing, currentTotal, total, computed, scores);
    order := clusters;
    result := Build(clusters, placement);
    CompactCounts(order, Counts(placement, order));
    CompactNamesListed(order, Counts(placement, order));
    assert RescaledOver(topology, result, order, Capacities(order, CountsOf(topology, order), computed, scores), start);
  }

  /** Pour what is missing, drain what is too much, or leave the counts alone. */
  method Rescale(clusters: seq<string>, existing: map<string, nat>, currentTotal: nat, total: nat, computed: map<string, int>, scores: map<string, nat>)
    returns (placement: map<string, nat>, ghost start: nat)
    requires Increasing(clusters) && currentTotal == Sum(Counts(existing, clusters))
    ensures clusters != [] || total == currentTotal ==> Sum(Counts(placement, clusters)) == total
    ensures var before := Counts(existing, clusters);
            && Follows(before, Counts(placement, clusters), Capacities(clusters, before, computed, scores), start)
            && (total > currentTotal ==> FillsInOrder(clusters, before, Counts(placement, clusters), start, computed, scores))
  {
    placement, start := existing, 0;
    if total > currentTotal {
      var first := StartIndex(clusters, existing);
      start := first;
      placement := PourIn(clusters, existing, total - currentTotal, first, computed, scores);
    } else if total < currentTotal {
      placement := DrainOut(clusters, existing, currentTotal - total);
    }
    NothingToPourInto(Counts(existing, clusters), Counts(placement, clusters));
  }

  /** With no cluster there is nothing to place. */
  lemma NothingToPourInto(before: seq<nat>, after: seq<nat>)
    requires |before| == |after|
    ensures before == [] ==> after == before && Sum(after) == Sum(before) == 0
  {
  }

  lemma CompactNamesListed(order: seq<string>, counts: seq<nat>)
    requires |order| == |counts|
    ensures forall n :: n in NamesOf(Compact(order, counts)) ==> n in order
  {
    CompactNames(order, counts);
  }
}
