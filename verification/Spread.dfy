/**
  The spread strategy of the scheduler: replicas are divided by score among the
  clusters in use and the best scored others. Growing never takes a replica away
  from a cluster, shrinking never gives one.
*/
module Spread {
  import opened Names
  import opened Placement
  import opened Apportionment

  datatype Scored = Scored(name: string, score: nat)

  // ------------------------------------------------------------- candidates

  /** Higher score first, the name breaks ties. */
  predicate Before(a: Scored, b: Scored) {
    a.score > b.score || (a.score == b.score && Less(a.name, b.name))
  }

  lemma BeforeIsTransitive(a: Scored, b: Scored, c: Scored)
    requires Before(a, b) && Before(b, c)
    ensures Before(a, c)
  {
    if a.score == b.score == c.score {
      LessIsTransitive(a.name, b.name, c.name);
    }
  }

  predicate Ranked(list: seq<Scored>) {
    forall i, j :: 0 <= i < j < |list| ==> Before(list[i], list[j])
  }

  method InsertRanked(list: seq<Scored>, x: Scored) returns (k: nat)
    requires Ranked(list) && forall i :: 0 <= i < |list| ==> list[i].name != x.name
    ensures k <= |list| && Ranked(list[..k] + [x] + list[k..])
  {
    k := 0;
    while k < |list| && Before(list[k], x)
      invariant k <= |list|
      invariant forall i :: 0 <= i < k ==> Before(list[i], x)
    {
      k := k + 1;
    }
    forall i | k <= i < |list| ensures Before(x, list[i]) {
      LessIsTotal(x.name, list[k].name);
      if i > k {
        BeforeIsTransitive(x, list[k], list[i]);
      }
    }
  }

  method Rank(scores: map<string, nat>) returns (list: seq<Scored>)
    ensures Ranked(list)
    ensures forall x :: x in list <==> x.name in scores && scores[x.name] == x.score
  {
    list := [];
    var left := scores.Keys;
    while left != {}
      invariant left <= scores.Keys && Ranked(list)
      invariant forall x :: x in list <==> x.name in scores && x.name !in left && scores[x.name] == x.score
      decreases left
    {
      var name :| name in left;
      var x := Scored(name, scores[name]);
      forall i | 0 <= i < |list| ensures list[i].name != name {
        assert list[i] in list;
      }
      var k := InsertRanked(list, x);
      ghost var before := list;
      list := list[..k] + [x] + list[k..];
      left := left - {name};
      assert forall y :: y in list <==> y in before || y == x;
    }
  }

  /** How many clusters may be used: the configured bound, the scored clusters, and the replicas at the minimum each. */
  function ClusterLimit(configured: int, minReplicas: int, scored: nat, total: nat): (limit: nat)
    ensures scored > 0 ==> limit > 0
    ensures limit <= scored || limit == 0
  {
    var wanted := if configured <= 0 then 5 else configured;
    var bounded := if wanted > scored then scored else wanted;
    var each := if minReplicas <= 0 then 1 else minReplicas;
    var usable := if total / each < 1 then 1 else total / each;
    if usable < bounded then usable else bounded
  }

  /** The limit is the largest number that the configured bound, 5 by default, the scored clusters and the minimum each allow; one is always allowed. */
  lemma LimitIsLargest(configured: int, minReplicas: int, scored: nat, total: nat, m: nat)
    ensures m <= ClusterLimit(configured, minReplicas, scored, total) <==>
              && m <= scored && m <= (if configured > 0 then configured else 5)
              && (m <= 1 || m * (if minReplicas > 0 then minReplicas else 1) <= total)
  {
    QuotientAdmits(m, total, if minReplicas > 0 then minReplicas else 1);
  }

  lemma QuotientAdmits(m: nat, total: nat, each: nat)
    requires each > 0
    ensures m <= total / each <==> m * each <= total
  {
    if m <= total / each {
      assert m * each <= (total / each) * each;
    } else {
      assert m * each >= (total / each + 1) * each;
    }
  }

  predicate Listed(list: seq<Scored>, name: string) {
    exists i :: 0 <= i < |list| && list[i].name == name
  }

  predicate DistinctScored(list: seq<Scored>) {
    forall i, j :: 0 <= i < j < |list| ==> list[i].name != list[j].name
  }

  function ScoreOf(scores: map<string, nat>, name: string): nat {
    if name in scores then scores[name] else 0
  }

  method InUse(placement: map<string, nat>, scores: map<string, nat>) returns (list: seq<Scored>)
    ensures DistinctScored(list) && |list| == |placement|
    ensures forall n :: Listed(list, n) <==> n in placement
    ensures forall x :: x in list ==> x.score == ScoreOf(scores, x.name) && x.name in placement
  {
    list := [];
    var left := placement.Keys;
    while left != {}
      invariant left <= placement.Keys && DistinctScored(list) && |list| + |left| == |placement.Keys|
      invariant forall n :: Listed(list, n) <==> n in placement && n !in left
      invariant forall x :: x in list ==> x.score == ScoreOf(scores, x.name) && x.name in placement
      decreases left
    {
      var name :| name in left;
      left := left - {name};
      Appended(list, Scored(name, ScoreOf(scores, name)));
      list := list + [Scored(name, ScoreOf(scores, name))];
    }
    assert |placement| == |placement.Keys|;
  }

  /** Append ranked clusters that are not listed yet while there is room. */
  method FillUp(inUse: seq<Scored>, ranked: seq<Scored>, limit: nat) returns (list: seq<Scored>)
    requires DistinctScored(inUse) && Ranked(ranked)
    ensures DistinctScored(list) && (|list| <= limit || |list| == |inUse|)
    ensures forall n :: Listed(inUse, n) ==> Listed(list, n)
    ensures forall x :: x in list ==> x in inUse || x in ranked
    ensures forall x :: x in ranked && !Listed(list, x.name) ==> |list| >= limit && forall y :: y in list && y !in inUse ==> Before(y, x)
  {
    list := inUse;
    var i := 0;
    while i < |ranked| && |list| < limit
      invariant i <= |ranked| && DistinctScored(list) && (|list| <= limit || |list| == |inUse|)
      invariant forall n :: Listed(inUse, n) ==> Listed(list, n)
      invariant forall j :: 0 <= j < i ==> Listed(list, ranked[j].name)
      invariant forall x :: x in list ==> x in inUse || x in ranked[..i]
    {
      assert ranked[..i + 1] == ranked[..i] + [ranked[i]];
      if !Listed(list, ranked[i].name) {
        Appended(list, ranked[i]);
        list := list + [ranked[i]];
      }
      i := i + 1;
    }
  }

  /** The clusters in use, then the best ranked others while there is room. */
  method Candidates(placement: map<string, nat>, scores: map<string, nat>, limit: nat) returns (list: seq<Scored>)
    ensures DistinctScored(list) && (|list| <= limit || |list| == |placement|)
    ensures forall x :: x in list ==> x.score == ScoreOf(scores, x.name) && (x.name in placement || x.name in scores)
    ensures forall n :: n in placement ==> Listed(list, n)
    ensures forall n :: n in scores && !Listed(list, n) ==> |list| >= limit
    ensures forall x, n :: x in list && x.name !in placement && n in scores && !Listed(list, n) ==>
              x.score > scores[n] || (x.score == scores[n] && Less(x.name, n))
  {
    var inUse := InUse(placement, scores);
    var ranked := Rank(scores);
    list := FillUp(inUse, ranked, limit);
    forall n | n in scores && !Listed(list, n)
      ensures |list| >= limit && forall x :: x in list && x.name !in placement ==> Before(x, Scored(n, scores[n]))
    {
      assert Scored(n, scores[n]) in ranked;
    }
  }

  lemma Appended(list: seq<Scored>, x: Scored)
    ensures forall n :: Listed(list + [x], n) <==> Listed(list, n) || n == x.name
  {
    forall n ensures Listed(list + [x], n) <==> Listed(list, n) || n == x.name {
      if Listed(list, n) {
        var i :| 0 <= i < |list| && list[i].name == n;
        assert (list + [x])[i].name == n;
      }
      assert (list + [x])[|list|].name == x.name;
    }
  }

  // ---------------------------------------------------------------- weights

  /** Allocations of clusters in use, with weights that add up to `totalWeight`. */
  ghost predicate Weighted(s: seq<Allocation>, totalWeight: real) {
    && Unique(s) && totalWeight > 0.0 && Sum(Weights(s)) == totalWeight
    && forall i :: 0 <= i < |s| ==> s[i].weight >= 0.0
  }

  predicate AllZero(list: seq<Scored>) {
    forall i :: 0 <= i < |list| ==> list[i].score == 0
  }

  function WeightOf(list: seq<Scored>, x: Scored): real {
    if AllZero(list) then 1.0 else x.score as real
  }

  /** The score is the weight; when every score is zero all clusters weigh the same. */
  method WeightsOf(list: seq<Scored>) returns (weights: seq<real>, totalWeight: real)
    requires list != []
    ensures totalWeight == Sum(weights) && totalWeight > 0.0 && |weights| == |list|
    ensures forall i :: 0 <= i < |list| ==> weights[i] == WeightOf(list, list[i])
    ensures forall i :: 0 <= i < |list| ==>
              weights[i] == if exists j :: 0 <= j < |list| && list[j].score > 0 then list[i].score as real else 1.0
  {
    totalWeight := 0.0;
    weights := [];
    for i := 0 to |list|
      invariant |weights| == i && totalWeight >= 0.0 && totalWeight == Sum(weights)
      invariant forall k :: 0 <= k < i ==> weights[k] == list[k].score as real
      invariant totalWeight == 0.0 <==> AllZero(list[..i])
    {
      assert list[..i + 1] == list[..i] + [list[i]];
      weights := weights + [list[i].score as real];
      assert weights[..i] + [list[i].score as real] == weights;
      totalWeight := totalWeight + list[i].score as real;
    }
    assert list[..|list|] == list;
    if totalWeight == 0.0 {
      totalWeight := |list| as real;
      for i := 0 to |list|
        invariant |weights| == |list|
        invariant forall k :: 0 <= k < i ==> weights[k] == 1.0
      {
        weights := weights[i := 1.0];
      }
      SumOfOnes(weights);
    }
  }

  function NewAllocation(list: seq<Scored>, x: Scored, placement: map<string, nat>): Allocation {
    var current := if x.name in placement then placement[x.name] else 0;
    Allocation(x.name, current, WeightOf(list, x), 0.0, current, 0.0)
  }

  /** Every candidate starts at what it runs now. */
  method Prepare(list: seq<Scored>, placement: map<string, nat>) returns (allocs: seq<Allocation>, totalWeight: real)
    requires list != [] && DistinctScored(list)
    ensures Weighted(allocs, totalWeight) && |allocs| == |list|
    ensures forall i :: 0 <= i < |list| ==> allocs[i] == NewAllocation(list, list[i], placement)
  {
    var weights;
    weights, totalWeight := WeightsOf(list);
    allocs := [];
    for i := 0 to |list|
      invariant |allocs| == i
      invariant forall k :: 0 <= k < i ==> allocs[k] == NewAllocation(list, list[k], placement)
    {
      var name := list[i].name;
      var current := if name in placement then placement[name] else 0;
      allocs := allocs + [Allocation(name, current, weights[i], 0.0, current, 0.0)];
    }
    assert Weights(allocs) == weights;
  }

  lemma {:induction false} SumOfOnes(xs: seq<real>)
    requires forall i :: 0 <= i < |xs| ==> xs[i] == 1.0
    ensures Sum(xs) == |xs| as real
  {
    if xs != [] {
      SumOfOnes(xs[..|xs| - 1]);
    }
  }

  // ------------------------------------------------------ ideals and deviations

  function Ideal(weight: real, total: nat, totalWeight: real): real
    requires totalWeight > 0.0
  {
    Portion(total as real, weight, totalWeight)
  }

  function Deficit(current: nat, weight: real, total: nat, totalWeight: real): real
    requires totalWeight > 0.0
  {
    var missing := Ideal(weight, total, totalWeight) - current as real;
    if missing > 0.0 then missing else 0.0
  }

  function Surplus(current: nat, weight: real, total: nat, totalWeight: real): real
    requires totalWeight > 0.0
  {
    var extra := current as real - Ideal(weight, total, totalWeight);
    if extra > 0.0 then extra else 0.0
  }

  function Ideals(s: seq<Allocation>, total: nat, totalWeight: real): seq<real>
    requires totalWeight > 0.0
  {
    seq(|s|, i requires 0 <= i < |s| => Ideal(s[i].weight, total, totalWeight))
  }

  function Deficits(s: seq<Allocation>, total: nat, totalWeight: real): seq<real>
    requires totalWeight > 0.0
  {
    seq(|s|, i requires 0 <= i < |s| => Deficit(s[i].current, s[i].weight, total, totalWeight))
  }

  function Surpluses(s: seq<Allocation>, total: nat, totalWeight: real): seq<real>
    requires totalWeight > 0.0
  {
    seq(|s|, i requires 0 <= i < |s| => Surplus(s[i].current, s[i].weight, total, totalWeight))
  }

  lemma IdealsAddUp(s: seq<Allocation>, total: nat, totalWeight: real)
    requires Weighted(s, totalWeight)
    ensures Sum(Ideals(s, total, totalWeight)) == total as real
  {
    SumScaled(Weights(s), total as real, totalWeight, Ideals(s, total, totalWeight));
    ScaleBack(total as real, totalWeight);
  }

  /** The clusters below their ideal lack together at least what is to be added: there is always a deficit to fill. */
  lemma DeficitsCoverGrowth(s: seq<Allocation>, total: nat, totalWeight: real)
    requires Weighted(s, totalWeight)
    ensures Sum(Deficits(s, total, totalWeight)) >= total as real - Sum(Currents(s))
  {
    var bound := seq(|s|, i requires 0 <= i < |s| => Deficit(s[i].current, s[i].weight, total, totalWeight) + s[i].current as real);
    IdealsAddUp(s, total, totalWeight);
    SumAdd(Deficits(s, total, totalWeight), Currents(s), bound);
    SumMonotone(Ideals(s, total, totalWeight), bound);
  }

  /** The clusters above their ideal hold together at least what is to be taken away. */
  lemma SurplusesCoverReduction(s: seq<Allocation>, total: nat, totalWeight: real)
    requires Weighted(s, totalWeight)
    ensures Sum(Surpluses(s, total, totalWeight)) >= Sum(Currents(s)) - total as real
  {
    var bound := seq(|s|, i requires 0 <= i < |s| => Surplus(s[i].current, s[i].weight, total, totalWeight) + Ideal(s[i].weight, total, totalWeight));
    IdealsAddUp(s, total, totalWeight);
    SumAdd(Surpluses(s, total, totalWeight), Ideals(s, total, totalWeight), bound);
    SumMonotone(Currents(s), bound);
  }

  /** A proportional share of an amount no larger than the whole is no larger than its own part. */
  lemma ShareIsWithin(amount: real, part: real, whole: real)
    requires 0.0 <= amount <= whole && whole > 0.0 && part >= 0.0
    ensures 0.0 <= Portion(amount, part, whole) <= part
  {
    assert 0.0 <= amount * part;
    assert amount * part <= whole * part;
    assert amount * part / whole <= whole * part / whole;
  }

  // ---------------------------------------------------------------- scale up

  /** The deficits, their sum, and the replicas already placed. */
  method MeasureDeficits(start: seq<Allocation>, total: nat, totalWeight: real)
    returns (deficits: seq<real>, totalDeficit: real, placed: int)
    requires totalWeight > 0.0
    ensures deficits == Deficits(start, total, totalWeight)
    ensures totalDeficit == Sum(deficits) && placed as real == Sum(Currents(start))
  {
    ghost var all, currents := Deficits(start, total, totalWeight), Currents(start);
    deficits, totalDeficit, placed := [], 0.0, 0;
    for i := 0 to |start|
      invariant deficits == all[..i]
      invariant totalDeficit == Sum(all[..i]) && placed as real == Sum(currents[..i])
    {
      var missing := Portion(total as real, start[i].weight, totalWeight) - start[i].current as real;
      var deficit := if missing > 0.0 then missing else 0.0;
      assert deficit == all[i];
      SumNext(all, i);
      SumNext(currents, i);
      assert all[..i + 1] == all[..i] + [all[i]];
      deficits := deficits + [deficit];
      totalDeficit := totalDeficit + deficit;
      placed := placed + start[i].current;
    }
    assert all[..|start|] == all && currents[..|start|] == currents;
  }

  /** A cluster's share of the growth; plain weights only when nobody is below the ideal. */
  function GrowthShare(x: Allocation, remaining: real, deficit: real, totalDeficit: real, totalWeight: real): real
    requires totalWeight > 0.0
  {
    if totalDeficit == 0.0 then Portion(remaining, x.weight, totalWeight) else Portion(remaining, deficit, totalDeficit)
  }

  method ShareGrowth(start: seq<Allocation>, remaining: int, deficits: seq<real>, totalDeficit: real, totalWeight: real)
    returns (allocs: seq<Allocation>)
    requires totalWeight > 0.0 && |deficits| == |start|
    ensures |allocs| == |start|
    ensures forall k :: 0 <= k < |start| ==>
      allocs[k] == start[k].(share := GrowthShare(start[k], remaining as real, deficits[k], totalDeficit, totalWeight))
  {
    allocs := start;
    for i := 0 to |start|
      invariant |allocs| == |start|
      invariant forall k :: 0 <= k < i ==>
        allocs[k] == start[k].(share := GrowthShare(start[k], remaining as real, deficits[k], totalDeficit, totalWeight))
      invariant forall k :: i <= k < |start| ==> allocs[k] == start[k]
    {
      allocs := allocs[i := start[i].(share := GrowthShare(start[i], remaining as real, deficits[i], totalDeficit, totalWeight))];
    }
  }

  /** The part of the growth that falls to a cluster, in proportion to its deficit. */
  function GrowthPart(current: nat, weight: real, remaining: real, total: nat, totalDeficit: real, totalWeight: real): real
    requires totalWeight > 0.0 && totalDeficit > 0.0
  {
    Portion(remaining, Deficit(current, weight, total, totalWeight), totalDeficit)
  }

  /**
    A cluster's count after a scale-up: nothing lost, nothing beyond the ideal rounded up
    unless it was there before, and the growth is a rounding of its part of the deficit.
  */
  ghost predicate GrownTo(current: nat, weight: real, count: int, remaining: real, total: nat, totalDeficit: real, totalWeight: real)
    requires totalWeight > 0.0 && totalDeficit > 0.0
  {
    var ideal := Ceiling(Ideal(weight, total, totalWeight));
    var share := GrowthPart(current, weight, remaining, total, totalDeficit, totalWeight);
    && current <= count <= (if ideal > current then ideal else current)
    && share.Floor <= count - current <= Ceiling(share)
  }

  ghost predicate Grown(x: Allocation, remaining: real, total: nat, totalDeficit: real, totalWeight: real)
    requires totalWeight > 0.0 && totalDeficit > 0.0
  {
    && GrownTo(x.current, x.weight, x.quota, remaining, total, totalDeficit, totalWeight)
    && x.share == GrowthPart(x.current, x.weight, remaining, total, totalDeficit, totalWeight)
  }

  ghost predicate AllGrown(s: seq<Allocation>, remaining: real, total: nat, totalDeficit: real, totalWeight: real)
    requires totalWeight > 0.0 && totalDeficit > 0.0
  {
    forall k {:trigger Grown(s[k], remaining, total, totalDeficit, totalWeight)} ::
      0 <= k < |s| ==> Grown(s[k], remaining, total, totalDeficit, totalWeight)
  }

  /** The share is the part of the deficit, and within it. */
  ghost predicate FairGrowth(current: nat, weight: real, share: real, remaining: real, total: nat, totalDeficit: real, totalWeight: real)
    requires totalWeight > 0.0 && totalDeficit > 0.0
  {
    && share == GrowthPart(current, weight, remaining, total, totalDeficit, totalWeight)
    && 0.0 <= share <= Deficit(current, weight, total, totalWeight)
  }

  /** There is a deficit to fill, so the shares of a growth never fall back to plain weights. */
  lemma NeverPlainWeights(start: seq<Allocation>, allocs: seq<Allocation>, remaining: real, deficits: seq<real>, totalWeight: real)
    requires totalWeight > 0.0 && |allocs| == |start| == |deficits| && Sum(deficits) > 0.0
    requires forall k :: 0 <= k < |start| ==>
      allocs[k] == start[k].(share := GrowthShare(start[k], remaining, deficits[k], Sum(deficits), totalWeight))
    ensures forall k :: 0 <= k < |start| ==> allocs[k] == start[k].(share := Portion(remaining, deficits[k], Sum(deficits)))
  {
  }

  lemma ProportionalSharesAddUp(allocs: seq<Allocation>, amount: real, parts: seq<real>)
    requires |allocs| == |parts| && Sum(parts) > 0.0
    requires forall k :: 0 <= k < |parts| ==> allocs[k].share == Portion(amount, parts[k], Sum(parts))
    ensures Sum(Shares(allocs)) == amount
  {
    SumScaled(parts, amount, Sum(parts), Shares(allocs));
    ScaleBack(amount, Sum(parts));
  }

  lemma SharesAreFair(start: seq<Allocation>, allocs: seq<Allocation>, remaining: real, total: nat, totalDeficit: real, totalWeight: real)
    requires totalWeight > 0.0 && |allocs| == |start| && 0.0 < remaining <= totalDeficit
    requires forall k :: 0 <= k < |start| ==>
      allocs[k] == start[k].(share := Portion(remaining, Deficits(start, total, totalWeight)[k], totalDeficit))
    ensures forall k :: 0 <= k < |allocs| ==>
      FairGrowth(allocs[k].current, allocs[k].weight, allocs[k].share, remaining, total, totalDeficit, totalWeight)
  {
    forall k | 0 <= k < |allocs|
      ensures FairGrowth(allocs[k].current, allocs[k].weight, allocs[k].share, remaining, total, totalDeficit, totalWeight)
    {
      ShareIsWithin(remaining, Deficits(start, total, totalWeight)[k], totalDeficit);
    }
  }

  /** Setting shares changes neither the names nor the counts. */
  lemma SharesKeepClusters(start: seq<Allocation>, allocs: seq<Allocation>)
    requires |allocs| == |start| && forall k :: 0 <= k < |start| ==> allocs[k].name == start[k].name && allocs[k].current == start[k].current
    ensures Unique(start) ==> Unique(allocs)
    ensures Currents(allocs) == Currents(start) && Clusters(allocs) == Clusters(start)
  {
  }

  lemma FairGrowthIsGrown(x: Allocation, remaining: real, total: nat, totalDeficit: real, totalWeight: real)
    requires totalWeight > 0.0 && totalDeficit > 0.0
    requires FairGrowth(x.current, x.weight, x.share, remaining, total, totalDeficit, totalWeight) && Moved(x, true)
    ensures Grown(x, remaining, total, totalDeficit, totalWeight)
  {
    CeilingIsMonotone(x.share, Ideal(x.weight, total, totalWeight), x.current);
  }

  lemma CeilingIsMonotone(share: real, ideal: real, current: nat)
    ensures 0.0 <= share && share <= ideal - current as real ==> Ceiling(share) <= Ceiling(ideal) - current
  {
  }

  /** The cluster is among the allocations, with its count and weight. */
  ghost predicate Carried(x: Allocation, allocs: seq<Allocation>) {
    exists j :: 0 <= j < |allocs| && allocs[j].name == x.name && allocs[j].current == x.current && allocs[j].weight == x.weight
  }

  lemma RoundingCarries(start: seq<Allocation>, shared: seq<Allocation>, allocs: seq<Allocation>)
    requires |shared| == |start| && SameClusters(shared, allocs)
    requires forall k :: 0 <= k < |start| ==>
      shared[k].name == start[k].name && shared[k].current == start[k].current && shared[k].weight == start[k].weight
    ensures |allocs| == |start| && forall k :: 0 <= k < |start| ==> Carried(start[k], allocs)
  {
    assert |multiset(Bases(shared))| == |shared| && |multiset(Bases(allocs))| == |allocs|;
    forall k | 0 <= k < |start| ensures Carried(start[k], allocs) {
      var j := BaseIn(shared, allocs, k);
      assert allocs[j].name == start[k].name;
    }
  }

  /** Scale-up: deficits first, then the largest remainders. */
  method Grow(start: seq<Allocation>, total: nat, totalWeight: real) returns (allocs: seq<Allocation>, ghost totalDeficit: real)
    requires Weighted(start, totalWeight) && Sum(Currents(start)) < total as real
    requires forall k :: 0 <= k < |start| ==> start[k].quota == start[k].current
    ensures totalDeficit == Sum(Deficits(start, total, totalWeight)) && totalDeficit > 0.0
    ensures Unique(allocs) && multiset(Clusters(allocs)) == multiset(Clusters(start))
    ensures |allocs| == |start| && forall k :: 0 <= k < |start| ==> Carried(start[k], allocs)
    ensures Sum(Quotas(allocs)) == total as real
    ensures forall k :: 0 <= k < |allocs| ==> allocs[k].current <= allocs[k].quota
    ensures AllGrown(allocs, total as real - Sum(Currents(start)), total, totalDeficit, totalWeight)
    ensures LargestFirst(allocs, true)
  {
    var deficits, sum, placed := MeasureDeficits(start, total, totalWeight);
    totalDeficit := sum;
    DeficitsCoverGrowth(start, total, totalWeight);
    ghost var remaining := (total - placed) as real;
    var shared := ShareGrowth(start, total - placed, deficits, sum, totalWeight);
    NeverPlainWeights(start, shared, remaining, deficits, totalWeight);
    ProportionalSharesAddUp(shared, remaining, deficits);
    SharesAreFair(start, shared, remaining, total, sum, totalWeight);
    SharesKeepClusters(start, shared);
    allocs := RoundShares(shared, true, total);
    forall k | 0 <= k < |allocs| ensures Grown(allocs[k], remaining, total, totalDeficit, totalWeight) {
      var j := BaseIn(allocs, shared, k);
      FairGrowthIsGrown(allocs[k], remaining, total, totalDeficit, totalWeight);
    }
    SameClustersSameCurrents(shared, allocs);
    RoundingCarries(start, shared, allocs);
  }

  // -------------------------------------------------------------- scale down

  /** The surpluses, their sum, and the replicas placed now. */
  method MeasureSurpluses(start: seq<Allocation>, total: nat, totalWeight: real)
    returns (surpluses: seq<real>, totalSurplus: real, placed: int)
    requires totalWeight > 0.0
    ensures surpluses == Surpluses(start, total, totalWeight)
    ensures totalSurplus == Sum(surpluses) && placed as real == Sum(Currents(start))
  {
    ghost var all, currents := Surpluses(start, total, totalWeight), Currents(start);
    surpluses, totalSurplus, placed := [], 0.0, 0;
    for i := 0 to |start|
      invariant surpluses == all[..i]
      invariant totalSurplus == Sum(all[..i]) && placed as real == Sum(currents[..i])
    {
      var extra := start[i].current as real - Portion(total as real, start[i].weight, totalWeight);
      var surplus := if extra > 0.0 then extra else 0.0;
      assert surplus == all[i];
      SumNext(all, i);
      SumNext(currents, i);
      assert all[..i + 1] == all[..i] + [all[i]];
      surpluses := surpluses + [surplus];
      totalSurplus := totalSurplus + surplus;
      placed := placed + start[i].current;
    }
    assert all[..|start|] == all && currents[..|start|] == currents;
  }

  /** The reduction in proportion to the surplus. */
  method ShareReduction(start: seq<Allocation>, toReduce: int, surpluses: seq<real>, totalSurplus: real) returns (allocs: seq<Allocation>)
    requires |surpluses| == |start| && totalSurplus > 0.0
    ensures |allocs| == |start|
    ensures forall k :: 0 <= k < |start| ==> allocs[k] == start[k].(share := Portion(toReduce as real, surpluses[k], totalSurplus))
  {
    allocs := start;
    for i := 0 to |start|
      invariant |allocs| == |start|
      invariant forall k :: 0 <= k < i ==> allocs[k] == start[k].(share := Portion(toReduce as real, surpluses[k], totalSurplus))
      invariant forall k :: i <= k < |start| ==> allocs[k] == start[k]
    {
      allocs := allocs[i := start[i].(share := Portion(toReduce as real, surpluses[i], totalSurplus))];
    }
  }

  /** The reduction in proportion to the inverse weights, where no cluster has a surplus. */
  method ShareByInverseWeight(start: seq<Allocation>, toReduce: int) returns (allocs: seq<Allocation>)
    requires forall k :: 0 <= k < |start| ==> start[k].weight >= 0.0
    ensures |allocs| == |start|
    ensures toReduce == 0 ==> forall k :: 0 <= k < |start| ==> allocs[k] == start[k].(share := 0.0)
  {
    var inverseTotal := 0.0;
    for i := 0 to |start|
      invariant inverseTotal >= 0.0
    {
      if start[i].weight > 0.0 {
        inverseTotal := inverseTotal + 1.0 / start[i].weight;
      }
    }
    allocs := start;
    for i := 0 to |start|
      invariant |allocs| == |start|
      invariant forall k :: i <= k < |start| ==> allocs[k] == start[k]
      invariant toReduce == 0 ==> forall k :: 0 <= k < i ==> allocs[k] == start[k].(share := 0.0)
    {
      var share := 0.0;
      if inverseTotal > 0.0 && start[i].weight > 0.0 {
        share := Portion(toReduce as real, 1.0 / start[i].weight, inverseTotal);
        NothingToShare(1.0 / start[i].weight, inverseTotal);
      }
      allocs := allocs[i := start[i].(share := share)];
    }
  }

  lemma NothingToShare(part: real, whole: real)
    requires whole != 0.0
    ensures Portion(0.0, part, whole) == 0.0
  {
  }

  /** The part of the reduction that falls to a cluster, in proportion to its surplus. */
  function ReductionPart(current: nat, weight: real, toReduce: real, total: nat, totalSurplus: real, totalWeight: real): real
    requires totalWeight > 0.0 && totalSurplus > 0.0
  {
    Portion(toReduce, Surplus(current, weight, total, totalWeight), totalSurplus)
  }

  /** The share is a part of the surplus, and within it. */
  ghost predicate FairReduction(current: nat, weight: real, share: real, toReduce: real, total: nat, totalSurplus: real, totalWeight: real)
    requires totalWeight > 0.0
  {
    && weight >= 0.0 && 0.0 <= share <= Surplus(current, weight, total, totalWeight)
    && (totalSurplus > 0.0 ==> share == ReductionPart(current, weight, toReduce, total, totalSurplus, totalWeight))
    && (toReduce == 0.0 ==> share == 0.0)
  }

  /**
    A cluster's count after a scale-down: nothing gained, a cluster above its ideal stays
    at the ideal rounded down or above, the others keep what they have, and so do all when
    there is nothing to reduce; the loss is a rounding of its part of the surplus.
  */
  ghost predicate ShrunkTo(current: nat, weight: real, count: int, toReduce: real, total: nat, totalSurplus: real, totalWeight: real)
    requires totalWeight > 0.0
  {
    var ideal := Ideal(weight, total, totalWeight);
    && 0 <= count <= current
    && (current as real > ideal ==> count >= ideal.Floor)
    && (current as real <= ideal ==> count == current)
    && (toReduce == 0.0 ==> count == current)
    && (totalSurplus > 0.0 ==>
          var share := ReductionPart(current, weight, toReduce, total, totalSurplus, totalWeight);
          share.Floor <= current - count <= Ceiling(share))
  }

  ghost predicate Shrunk(x: Allocation, toReduce: real, total: nat, totalSurplus: real, totalWeight: real)
    requires totalWeight > 0.0
  {
    && ShrunkTo(x.current, x.weight, x.quota, toReduce, total, totalSurplus, totalWeight)
    && (totalSurplus > 0.0 ==> x.share == ReductionPart(x.current, x.weight, toReduce, total, totalSurplus, totalWeight))
  }

  ghost predicate AllShrunk(s: seq<Allocation>, toReduce: real, total: nat, totalSurplus: real, totalWeight: real)
    requires totalWeight > 0.0
  {
    forall k {:trigger Shrunk(s[k], toReduce, total, totalSurplus, totalWeight)} ::
      0 <= k < |s| ==> Shrunk(s[k], toReduce, total, totalSurplus, totalWeight)
  }

  lemma FairReductionIsShrunk(x: Allocation, toReduce: real, total: nat, totalSurplus: real, totalWeight: real)
    requires totalWeight > 0.0
    requires FairReduction(x.current, x.weight, x.share, toReduce, total, totalSurplus, totalWeight) && Moved(x, false)
    ensures Shrunk(x, toReduce, total, totalSurplus, totalWeight)
  {
    var ideal := Ideal(x.weight, total, totalWeight);
    IdealIsNonNegative(x.weight, total, totalWeight);
    FloorIsMonotone(x.share, ideal, x.current);
  }

  lemma IdealIsNonNegative(weight: real, total: nat, totalWeight: real)
    requires totalWeight > 0.0 && weight >= 0.0
    ensures Ideal(weight, total, totalWeight) >= 0.0
  {
    assert total as real * weight >= 0.0;
  }

  lemma FloorIsMonotone(share: real, ideal: real, current: nat)
    ensures 0.0 <= share && share <= current as real - ideal ==> Ceiling(share) <= current - ideal.Floor
  {
  }

  lemma ReductionIsFair(start: seq<Allocation>, allocs: seq<Allocation>, toReduce: real, total: nat, totalSurplus: real, totalWeight: real)
    requires Weighted(start, totalWeight) && |allocs| == |start| && 0.0 <= toReduce <= totalSurplus && totalSurplus > 0.0
    requires forall k :: 0 <= k < |start| ==>
      allocs[k] == start[k].(share := Portion(toReduce, Surpluses(start, total, totalWeight)[k], totalSurplus))
    ensures forall k :: 0 <= k < |allocs| ==>
      FairReduction(allocs[k].current, allocs[k].weight, allocs[k].share, toReduce, total, totalSurplus, totalWeight)
  {
    forall k | 0 <= k < |allocs|
      ensures FairReduction(allocs[k].current, allocs[k].weight, allocs[k].share, toReduce, total, totalSurplus, totalWeight)
    {
      ShareIsWithin(toReduce, Surpluses(start, total, totalWeight)[k], totalSurplus);
      NothingToShare(Surpluses(start, total, totalWeight)[k], totalSurplus);
    }
  }

  lemma {:induction false} SurplusesAreNonNegative(s: seq<Allocation>, total: nat, totalWeight: real)
    requires totalWeight > 0.0
    ensures Sum(Surpluses(s, total, totalWeight)) >= 0.0
  {
    var zeros := seq(|s|, i => 0.0);
    SumOfZeros(zeros);
    SumMonotone(zeros, Surpluses(s, total, totalWeight));
  }

  /** No cluster above its ideal means nothing to take away: the inverse-weight branch never moves a replica. */
  lemma NoSurplusNothingToReduce(s: seq<Allocation>, total: nat, totalWeight: real)
    requires Weighted(s, totalWeight) && Sum(Currents(s)) >= total as real
    ensures Sum(Surpluses(s, total, totalWeight)) <= 0.0 ==> Sum(Currents(s)) == total as real
  {
    SurplusesCoverReduction(s, total, totalWeight);
  }

  /** The shares of the reduction: by surplus, or by inverse weight when there is no surplus. */
  method ShareScaleDown(start: seq<Allocation>, total: nat, totalWeight: real) returns (allocs: seq<Allocation>, ghost totalSurplus: real)
    requires Weighted(start, totalWeight) && Sum(Currents(start)) >= total as real
    ensures totalSurplus == Sum(Surpluses(start, total, totalWeight)) && |allocs| == |start|
    ensures forall k :: 0 <= k < |start| ==> allocs[k] == start[k].(share := allocs[k].share)
    ensures Sum(Shares(allocs)) == Sum(Currents(start)) - total as real
    ensures forall k :: 0 <= k < |allocs| ==>
      FairReduction(allocs[k].current, allocs[k].weight, allocs[k].share, Sum(Currents(start)) - total as real, total, totalSurplus, totalWeight)
  {
    var surpluses, sum, placed := MeasureSurpluses(start, total, totalWeight);
    totalSurplus := sum;
    ghost var toReduce := (placed - total) as real;
    SurplusesCoverReduction(start, total, totalWeight);
    SurplusesAreNonNegative(start, total, totalWeight);
    if sum > 0.0 {
      allocs := ShareReduction(start, placed - total, surpluses, sum);
      ProportionalSharesAddUp(allocs, toReduce, surpluses);
      ReductionIsFair(start, allocs, toReduce, total, sum, totalWeight);
    } else {
      NoSurplusNothingToReduce(start, total, totalWeight);
      allocs := ShareByInverseWeight(start, placed - total);
      SumOfZeros(Shares(allocs));
    }
  }

  /** The final clamp of the scale-down. */
  method ClampNegative(allocs: seq<Allocation>) returns (clamped: seq<Allocation>)
    ensures |clamped| == |allocs|
    ensures forall k :: 0 <= k < |allocs| ==> clamped[k] == if allocs[k].quota < 0 then allocs[k].(quota := 0) else allocs[k]
  {
    clamped := allocs;
    for i := 0 to |allocs|
      invariant |clamped| == |allocs|
      invariant forall k :: 0 <= k < i ==> clamped[k] == if allocs[k].quota < 0 then allocs[k].(quota := 0) else allocs[k]
      invariant forall k :: i <= k < |allocs| ==> clamped[k] == allocs[k]
    {
      if clamped[i].quota < 0 {
        clamped := clamped[i := clamped[i].(quota := 0)];
      }
    }
  }

  /** Scale-down: surpluses first, then the largest remainders; the clamp finds nothing to do. */
  method Shrink(start: seq<Allocation>, total: nat, totalWeight: real) returns (allocs: seq<Allocation>, ghost totalSurplus: real)
    requires Weighted(start, totalWeight) && Sum(Currents(start)) >= total as real
    requires forall k :: 0 <= k < |start| ==> start[k].quota == start[k].current
    ensures totalSurplus == Sum(Surpluses(start, total, totalWeight))
    ensures Unique(allocs) && multiset(Clusters(allocs)) == multiset(Clusters(start))
    ensures |allocs| == |start| && forall k :: 0 <= k < |start| ==> Carried(start[k], allocs)
    ensures Sum(Quotas(allocs)) == total as real
    ensures AllShrunk(allocs, Sum(Currents(start)) - total as real, total, totalSurplus, totalWeight)
    ensures forall k :: 0 <= k < |allocs| ==> 0 <= allocs[k].quota <= allocs[k].current
    ensures Sum(Currents(start)) == total as real ==> forall k :: 0 <= k < |allocs| ==> allocs[k].quota == allocs[k].current
    ensures LargestFirst(allocs, false)
  {
    var shared;
    shared, totalSurplus := ShareScaleDown(start, total, totalWeight);
    ghost var toReduce := Sum(Currents(start)) - total as real;
    SharesKeepClusters(start, shared);
    var rounded := RoundShares(shared, false, total);
    RoundedReduction(shared, rounded, toReduce, total, totalSurplus, totalWeight);
    SameClustersSameCurrents(shared, rounded);
    RoundingCarries(start, shared, rounded);
    allocs := ClampNegative(rounded);
    assert allocs == rounded;
  }

  /** Rounding fair reductions leaves no count below zero or above what it was. */
  lemma RoundedReduction(shared: seq<Allocation>, rounded: seq<Allocation>, toReduce: real, total: nat, totalSurplus: real, totalWeight: real)
    requires totalWeight > 0.0 && SameClusters(shared, rounded) && forall k :: 0 <= k < |rounded| ==> Moved(rounded[k], false)
    requires forall k :: 0 <= k < |shared| ==>
      FairReduction(shared[k].current, shared[k].weight, shared[k].share, toReduce, total, totalSurplus, totalWeight)
    ensures AllShrunk(rounded, toReduce, total, totalSurplus, totalWeight)
    ensures forall k :: 0 <= k < |rounded| ==> 0 <= rounded[k].quota <= rounded[k].current
    ensures toReduce == 0.0 ==> forall k :: 0 <= k < |rounded| ==> rounded[k].quota == rounded[k].current
  {
    forall k | 0 <= k < |rounded|
      ensures Shrunk(rounded[k], toReduce, total, totalSurplus, totalWeight) && 0 <= rounded[k].quota <= rounded[k].current
      ensures toReduce == 0.0 ==> rounded[k].quota == rounded[k].current
    {
      var j := BaseIn(rounded, shared, k);
      FairReductionIsShrunk(rounded[k], toReduce, total, totalSurplus, totalWeight);
    }
  }

  // ------------------------------------------------------------------ result

  /** A cluster that is not placed yet takes its position. */
  method PlaceCluster(t: seq<ClusterTopology>, x: ClusterTopology) returns (u: seq<ClusterTopology>)
    requires Canonical(t) && x.replicas > 0 && Replicas(t, x.name) == 0
    ensures Canonical(u) && Total(u) == Total(t) + x.replicas && |u| == |t| + 1
    ensures forall n :: Replicas(u, n) == if n == x.name then x.replicas else Replicas(t, n)
  {
    CanonicalNames(t, x.name);
    var k := Place(NamesOf(t), x.name);
    Inserted(t, k, x);
    u := t[..k] + [x] + t[k..];
  }

  /** The clusters that get replicas, sorted by name. */
  method Collect(allocs: seq<Allocation>) returns (result: seq<ClusterTopology>)
    requires Unique(allocs) && forall k :: 0 <= k < |allocs| ==> allocs[k].quota >= 0
    ensures Canonical(result) && Total(result) as real == Sum(Quotas(allocs)) && |result| <= |allocs|
    ensures forall k :: 0 <= k < |allocs| ==> Replicas(result, allocs[k].name) == allocs[k].quota
    ensures forall n :: (forall k :: 0 <= k < |allocs| ==> allocs[k].name != n) ==> Replicas(result, n) == 0
  {
    result := [];
    for i := 0 to |allocs|
      invariant Canonical(result) && Total(result) as real == Sum(Quotas(allocs)[..i]) && |result| <= i
      invariant forall k :: 0 <= k < i ==> Replicas(result, allocs[k].name) == allocs[k].quota
      invariant forall n :: (forall k :: 0 <= k < i ==> allocs[k].name != n) ==> Replicas(result, n) == 0
    {
      SumNext(Quotas(allocs), i);
      assert Replicas(result, allocs[i].name) == 0;
      if allocs[i].quota > 0 {
        result := PlaceCluster(result, ClusterTopology(allocs[i].name, allocs[i].quota));
      }
    }
    assert Quotas(allocs)[..|allocs|] == Quotas(allocs);
  }

  lemma Inserted(t: seq<ClusterTopology>, k: nat, x: ClusterTopology)
    requires Canonical(t) && x.replicas > 0 && k <= |t| && x.name !in NamesOf(t)
    requires forall i :: 0 <= i < k ==> Less(NamesOf(t)[i], x.name)
    requires forall i :: k <= i < |t| ==> Less(x.name, NamesOf(t)[i])
    ensures var u := t[..k] + [x] + t[k..];
            && Canonical(u) && Total(u) == Total(t) + x.replicas
            && forall n :: Replicas(u, n) == if n == x.name then x.replicas else Replicas(t, n)
  {
    var u := t[..k] + [x] + t[k..];
    InsertedIsCanonical(t, k, x);
    InsertedTotal(t, k, x);
    forall n ensures Replicas(u, n) == if n == x.name then x.replicas else Replicas(t, n) {
      InsertedReplicas(t, k, x, n);
    }
  }

  lemma InsertedTotal(t: seq<ClusterTopology>, k: nat, x: ClusterTopology)
    requires k <= |t|
    ensures Total(t[..k] + [x] + t[k..]) == Total(t) + x.replicas
  {
    TotalConcat(t[..k], [x]);
    TotalConcat(t[..k] + [x], t[k..]);
    TotalConcat(t[..k], t[k..]);
    assert t[..k] + t[k..] == t && [x][..0] == [];
    assert Total([x]) == x.replicas;
  }

  lemma InsertedIsCanonical(t: seq<ClusterTopology>, k: nat, x: ClusterTopology)
    requires Canonical(t) && x.replicas > 0 && k <= |t|
    requires forall i :: 0 <= i < k ==> Less(NamesOf(t)[i], x.name)
    requires forall i :: k <= i < |t| ==> Less(x.name, NamesOf(t)[i])
    ensures Canonical(t[..k] + [x] + t[k..])
  {
    var u := t[..k] + [x] + t[k..];
    assert NamesOf(u) == NamesOf(t)[..k] + [x.name] + NamesOf(t)[k..];
    assert forall i :: 0 <= i < |u| ==> NamesOf(u)[i] == if i < k then NamesOf(t)[i] else if i == k then x.name else NamesOf(t)[i - 1];
  }

  lemma InsertedReplicas(t: seq<ClusterTopology>, k: nat, x: ClusterTopology, n: string)
    requires Canonical(t) && k <= |t| && Canonical(t[..k] + [x] + t[k..])
    ensures Replicas(t[..k] + [x] + t[k..], n) == if n == x.name then x.replicas else Replicas(t, n)
  {
    var u := t[..k] + [x] + t[k..];
    CanonicalIsDistinct(t);
    CanonicalIsDistinct(u);
    if n == x.name {
      assert u[k] == x;
      ReplicasAt(u, k);
    } else if i :| 0 <= i < |t| && t[i].name == n {
      ReplicasAt(t, i);
      assert u[if i < k then i else i + 1] == t[i];
      ReplicasAt(u, if i < k then i else i + 1);
    } else {
      ReplicasAbsent(t, n);
      ReplicasAbsent(u, n);
    }
  }

  /** What the candidates run together is what the placement runs: every cluster in use is a candidate. */
  lemma {:induction false} CandidatesRunEverything(topology: seq<ClusterTopology>, s: seq<Allocation>)
    requires DistinctNames(topology) && Unique(s)
    requires forall k :: 0 <= k < |s| ==> s[k].current == Replicas(topology, s[k].name)
    requires forall i :: 0 <= i < |topology| ==> Runs(s, topology[i].name)
    ensures Sum(Currents(s)) == Total(topology) as real
  {
    if topology == [] {
      SumOfZeros(Currents(s));
    } else {
      var last, rest := topology[|topology| - 1], topology[..|topology| - 1];
      var k :| 0 <= k < |s| && s[k].name == last.name;
      WithoutLast(topology, s, k);
      CandidatesRunEverything(rest, s[k := s[k].(current := 0)]);
      SumUpdate(Currents(s), k, 0.0);
      assert Currents(s[k := s[k].(current := 0)]) == Currents(s)[k := 0.0];
    }
  }

  /** Without the last cluster of the placement its candidate runs nothing, and every other one what it did. */
  lemma WithoutLast(topology: seq<ClusterTopology>, s: seq<Allocation>, k: nat)
    requires topology != [] && DistinctNames(topology) && Unique(s) && k < |s| && s[k].name == topology[|topology| - 1].name
    requires forall k :: 0 <= k < |s| ==> s[k].current == Replicas(topology, s[k].name)
    requires forall i :: 0 <= i < |topology| ==> Runs(s, topology[i].name)
    ensures var rest, without := topology[..|topology| - 1], s[k := s[k].(current := 0)];
            && DistinctNames(rest) && Unique(without)
            && (forall j :: 0 <= j < |without| ==> without[j].current == Replicas(rest, without[j].name))
            && (forall i :: 0 <= i < |rest| ==> Runs(without, rest[i].name))
            && s[k].current == topology[|topology| - 1].replicas
  {
    var rest, without := topology[..|topology| - 1], s[k := s[k].(current := 0)];
    ReplicasAbsent(rest, s[k].name);
    forall i | 0 <= i < |rest| ensures Runs(without, rest[i].name) {
      assert rest[i] == topology[i];
      var j :| 0 <= j < |s| && s[j].name == rest[i].name;
      assert without[j].name == rest[i].name;
    }
  }

  ghost predicate Runs(s: seq<Allocation>, name: string) {
    exists k :: 0 <= k < |s| && s[k].name == name
  }

  // ---------------------------------------------------------------- strategy

  /** Every allocation is a cluster of the placement or a scored one, with its current count. */
  ghost predicate Starts(s: seq<Allocation>, topology: seq<ClusterTopology>, scores: map<string, nat>) {
    && (forall k :: 0 <= k < |s| ==> Starting((s[k].name, s[k].current), topology, scores))
    && (forall i :: 0 <= i < |topology| ==> Runs(s, topology[i].name))
  }

  ghost predicate Starting(cluster: (string, nat), topology: seq<ClusterTopology>, scores: map<string, nat>) {
    cluster.1 == Replicas(topology, cluster.0) && (cluster.0 in NamesOf(topology) || cluster.0 in scores)
  }

  lemma CandidatesStart(list: seq<Scored>, placement: map<string, nat>, scores: map<string, nat>, topology: seq<ClusterTopology>, s: seq<Allocation>)
    requires forall n :: n in placement <==> n in NamesOf(topology)
    requires forall n :: n in placement ==> placement[n] == Replicas(topology, n)
    requires forall x :: x in list ==> x.name in placement || x.name in scores
    requires forall n :: n in placement ==> Listed(list, n)
    requires |s| == |list| && forall i :: 0 <= i < |list| ==> s[i] == NewAllocation(list, list[i], placement)
    ensures Starts(s, topology, scores)
  {
    forall k | 0 <= k < |s| ensures Starting((s[k].name, s[k].current), topology, scores) {
      assert list[k] in list;
      if s[k].name !in placement {
        forall i | 0 <= i < |topology| ensures topology[i].name != s[k].name {
          assert NamesOf(topology)[i] in NamesOf(topology);
        }
        ReplicasAbsent(topology, s[k].name);
      }
    }
    forall i | 0 <= i < |topology| ensures Runs(s, topology[i].name) {
      assert NamesOf(topology)[i] in NamesOf(topology);
      var k :| 0 <= k < |list| && list[k].name == topology[i].name;
      assert s[k].name == topology[i].name;
    }
  }

  /** Rounding and sorting keep the clusters and their counts. */
  lemma StillStarts(s: seq<Allocation>, t: seq<Allocation>, topology: seq<ClusterTopology>, scores: map<string, nat>)
    requires multiset(Clusters(s)) == multiset(Clusters(t)) && Starts(s, topology, scores)
    ensures Starts(t, topology, scores)
  {
    forall k | 0 <= k < |t| ensures Starting((t[k].name, t[k].current), topology, scores) {
      assert Clusters(t)[k] in multiset(Clusters(s));
      var j :| 0 <= j < |Clusters(s)| && Clusters(s)[j] == Clusters(t)[k];
      assert Starting((s[j].name, s[j].current), topology, scores);
    }
    forall i | 0 <= i < |topology| ensures Runs(t, topology[i].name) {
      var k :| 0 <= k < |s| && s[k].name == topology[i].name;
      assert Clusters(s)[k] in multiset(Clusters(t));
      var j :| 0 <= j < |Clusters(t)| && Clusters(t)[j] == Clusters(s)[k];
      assert t[j].name == topology[i].name;
    }
  }

  /** How the final counts relate to the current ones, cluster by cluster. */
  lemma CompareCounts(allocs: seq<Allocation>, topology: seq<ClusterTopology>, scores: map<string, nat>, result: seq<ClusterTopology>, n: string)
    requires Starts(allocs, topology, scores)
    requires forall k :: 0 <= k < |allocs| ==> Replicas(result, allocs[k].name) == allocs[k].quota
    requires forall n :: (forall k :: 0 <= k < |allocs| ==> allocs[k].name != n) ==> Replicas(result, n) == 0
    ensures (forall k :: 0 <= k < |allocs| ==> allocs[k].current <= allocs[k].quota) ==> Replicas(topology, n) <= Replicas(result, n)
    ensures (forall k :: 0 <= k < |allocs| ==> allocs[k].quota <= allocs[k].current) ==> Replicas(result, n) <= Replicas(topology, n)
    ensures Replicas(result, n) > 0 ==> n in NamesOf(topology) || n in scores
  {
    if k :| 0 <= k < |allocs| && allocs[k].name == n {
      assert Starting((allocs[k].name, allocs[k].current), topology, scores);
    } else {
      forall i | 0 <= i < |topology| ensures topology[i].name != n {
        assert Runs(allocs, topology[i].name);
      }
      ReplicasAbsent(topology, n);
    }
  }

  /** What the candidates score together. */
  function ScoreSum(list: seq<Scored>): nat {
    if list == [] then 0 else ScoreSum(list[..|list| - 1]) + list[|list| - 1].score
  }

  lemma {:induction false} ScoresAddUp(list: seq<Scored>, xs: seq<real>)
    requires |xs| == |list| && forall i :: 0 <= i < |list| ==> xs[i] == list[i].score as real
    ensures Sum(xs) == ScoreSum(list) as real
  {
    if list != [] {
      ScoresAddUp(list[..|list| - 1], xs[..|xs| - 1]);
    }
  }

  /**
    The weights are the scores the clusters were given: a candidate weighs its score, an
    unscored one nothing, and all weigh the same when no candidate scores above zero.
  */
  ghost predicate WeighsScores(list: seq<Scored>, start: seq<Allocation>, scores: map<string, nat>) {
    && |start| == |list|
    && forall k :: 0 <= k < |list| ==>
         && start[k].name == list[k].name
         && start[k].weight ==
              if exists j :: 0 <= j < |list| && list[j].name in scores && scores[list[j].name] > 0
              then (if list[k].name in scores then scores[list[k].name] else 0) as real
              else 1.0
  }

  lemma CandidatesWeighScores(list: seq<Scored>, topology: seq<ClusterTopology>, scores: map<string, nat>)
    requires forall x :: x in list ==> x.score == ScoreOf(scores, x.name)
    ensures WeighsScores(list, StartOf(list, topology), scores)
  {
    assert forall j :: 0 <= j < |list| ==> list[j] in list;
    assert AllZero(list) <==> !exists j :: 0 <= j < |list| && list[j].name in scores && scores[list[j].name] > 0;
  }

  /** A number that is `amount` rounded down or up. */
  predicate Rounds(n: int, amount: real) {
    amount - 1.0 < n as real < amount + 1.0
  }

  /**
    From nothing placed, every candidate gets its part of the replicas by score, rounded down
    or up: `total * score / sum of the candidates' scores`, or equal parts when no candidate
    scores above zero.
  */
  ghost predicate DividesByScore(list: seq<Scored>, scores: map<string, nat>, result: seq<ClusterTopology>, total: nat) {
    forall k :: 0 <= k < |list| ==>
      if ScoreSum(list) > 0
      then list[k].name in scores && Rounds(Replicas(result, list[k].name), (total * scores[list[k].name]) as real / ScoreSum(list) as real)
      else Rounds(Replicas(result, list[k].name), total as real / |list| as real)
  }

  lemma {:induction false} ZeroScores(list: seq<Scored>)
    ensures ScoreSum(list) == 0 <==> AllZero(list)
  {
    if list != [] {
      ZeroScores(list[..|list| - 1]);
    }
  }

  /** The sum of the candidates' weights. */
  lemma WeightsSum(list: seq<Scored>, topology: seq<ClusterTopology>)
    ensures Sum(Weights(StartOf(list, topology))) == if AllZero(list) then |list| as real else ScoreSum(list) as real
  {
    if AllZero(list) {
      SumOfOnes(Weights(StartOf(list, topology)));
    } else {
      ScoresAddUp(list, Weights(StartOf(list, topology)));
    }
  }

  /** Without anything placed the deficit of a cluster is its ideal, and all deficits make up the total. */
  lemma DeficitsFromScratch(s: seq<Allocation>, total: nat, weight: real)
    requires Weighted(s, weight) && forall k :: 0 <= k < |s| ==> s[k].current == 0
    ensures Deficits(s, total, weight) == Ideals(s, total, weight) && Sum(Deficits(s, total, weight)) == total as real && Sum(Currents(s)) == 0.0
  {
    IdealsAddUp(s, total, weight);
    SumOfZeros(Currents(s));
    forall k | 0 <= k < |s| ensures Deficits(s, total, weight)[k] == Ideals(s, total, weight)[k] {
      IdealIsNonNegative(s[k].weight, total, weight);
    }
  }

  lemma PartOfWhole(amount: real, part: real)
    requires amount > 0.0
    ensures Portion(amount, part, amount) == part
  {
  }

  lemma NothingIdeal(weight: real, totalWeight: real)
    requires totalWeight > 0.0
    ensures Ideal(weight, 0, totalWeight) == 0.0
  {
  }

  /** A first placement gives every candidate its ideal, rounded down or up. */
  lemma FirstPlacement(s: seq<Allocation>, result: seq<ClusterTopology>, total: nat, k: nat)
    requires k < |s| && Weighted(s, Sum(Weights(s))) && forall k :: 0 <= k < |s| ==> s[k].current == 0
    requires total > 0 ==> FairlyGrown(s, result, total)
    requires total == 0 ==> Replicas(result, s[k].name) == 0
    ensures Rounds(Replicas(result, s[k].name), Ideal(s[k].weight, total, Sum(Weights(s))))
  {
    var weight := Sum(Weights(s));
    DeficitsFromScratch(s, total, weight);
    assert Deficits(s, total, weight)[k] == Ideals(s, total, weight)[k];
    if total > 0 {
      PartOfWhole(total as real, Ideal(s[k].weight, total, weight));
      assert GrownTo(s[k].current, s[k].weight, Replicas(result, s[k].name), total as real, total, total as real, weight);
    } else {
      NothingIdeal(s[k].weight, weight);
    }
  }

  lemma IdealByScore(score: nat, total: nat, sum: nat, n: nat)
    ensures sum > 0 ==> Ideal(score as real, total, sum as real) == (total * score) as real / sum as real
    ensures n > 0 ==> Ideal(1.0, total, n as real) == total as real / n as real
  {
    assert total as real * score as real == (total * score) as real;
  }

  lemma FirstDivision(list: seq<Scored>, scores: map<string, nat>, result: seq<ClusterTopology>, total: nat)
    requires DistinctScored(list) && (forall x :: x in list ==> x.name in scores && x.score == scores[x.name])
    requires Weighted(StartOf(list, []), Sum(Weights(StartOf(list, []))))
    requires total > 0 ==> FairlyGrown(StartOf(list, []), result, total)
    requires total == 0 ==> forall n :: Replicas(result, n) == 0
    ensures DividesByScore(list, scores, result, total)
  {
    ZeroScores(list);
    WeightsSum(list, []);
    var s := StartOf(list, []);
    forall k | 0 <= k < |list|
      ensures list[k].name in scores
      ensures Rounds(Replicas(result, list[k].name), if ScoreSum(list) > 0 then (total * scores[list[k].name]) as real / ScoreSum(list) as real
                                                                            else total as real / |list| as real)
    {
      assert list[k] in list;
      FirstPlacement(s, result, total, k);
      IdealByScore(scores[list[k].name], total, ScoreSum(list), |list|);
    }
  }

  /**
    The candidates of a placement: the clusters in use and the best ranked others, no more
    than the limit unless the clusters in use are more.
  */
  ghost predicate AreCandidates(list: seq<Scored>, topology: seq<ClusterTopology>, scores: map<string, nat>, limit: nat) {
    && DistinctScored(list) && (|list| <= limit || |list| <= |topology|)
    && (forall x :: x in list ==> x.score == ScoreOf(scores, x.name) && (x.name in NamesOf(topology) || x.name in scores))
    && (forall n :: n in NamesOf(topology) ==> Listed(list, n))
    && (forall n :: n in scores && !Listed(list, n) ==> |list| >= limit)
    && (forall x, n :: x in list && x.name !in NamesOf(topology) && n in scores && !Listed(list, n) ==>
          x.score > scores[n] || (x.score == scores[n] && Less(x.name, n)))
  }

  /** The candidates with their present counts and their weights. */
  function StartOf(list: seq<Scored>, topology: seq<ClusterTopology>): (s: seq<Allocation>)
    ensures |s| == |list|
  {
    seq(|list|, i requires 0 <= i < |list| =>
      var current := Replicas(topology, list[i].name);
      Allocation(list[i].name, current, WeightOf(list, list[i]), 0.0, current, 0.0))
  }

  /**
    Every candidate grew by a rounding of its part of the deficit, and not beyond its ideal;
    rounded up are those with the largest remainders.
  */
  ghost predicate FairlyGrown(start: seq<Allocation>, result: seq<ClusterTopology>, total: nat) {
    var weight := Sum(Weights(start));
    && weight > 0.0
    && var deficit, remaining := Sum(Deficits(start, total, weight)), total as real - Sum(Currents(start));
       && deficit > 0.0
       && (forall k :: 0 <= k < |start| ==>
             GrownTo(start[k].current, start[k].weight, Replicas(result, start[k].name), remaining, total, deficit, weight))
       && (forall j, k {:trigger Replicas(result, start[j].name), Replicas(result, start[k].name)} :: 0 <= j < |start| && 0 <= k < |start| ==>
             Outranks(Replicas(result, start[j].name) - start[j].current, GrowthPart(start[j].current, start[j].weight, remaining, total, deficit, weight),
                      Replicas(result, start[k].name) - start[k].current, GrowthPart(start[k].current, start[k].weight, remaining, total, deficit, weight)))
  }

  /**
    Every candidate shrank by a rounding of its part of the surplus, and not below its ideal;
    rounded up are those with the largest remainders.
  */
  ghost predicate FairlyShrunk(start: seq<Allocation>, result: seq<ClusterTopology>, total: nat) {
    var weight := Sum(Weights(start));
    && weight > 0.0
    && var surplus, toReduce := Sum(Surpluses(start, total, weight)), Sum(Currents(start)) - total as real;
       && (forall k :: 0 <= k < |start| ==>
             ShrunkTo(start[k].current, start[k].weight, Replicas(result, start[k].name), toReduce, total, surplus, weight))
       && (surplus > 0.0 ==>
             forall j, k {:trigger Replicas(result, start[j].name), Replicas(result, start[k].name)} :: 0 <= j < |start| && 0 <= k < |start| ==>
             Outranks(start[j].current - Replicas(result, start[j].name), ReductionPart(start[j].current, start[j].weight, toReduce, total, surplus, weight),
                      start[k].current - Replicas(result, start[k].name), ReductionPart(start[k].current, start[k].weight, toReduce, total, surplus, weight)))
  }

  /** The allocation a candidate ends up with. */
  lemma FindCarried(x: Allocation, allocs: seq<Allocation>, result: seq<ClusterTopology>) returns (j: nat)
    requires Carried(x, allocs) && forall k :: 0 <= k < |allocs| ==> Replicas(result, allocs[k].name) == allocs[k].quota
    ensures j < |allocs| && allocs[j].current == x.current && allocs[j].weight == x.weight && allocs[j].quota == Replicas(result, x.name)
  {
    j :| 0 <= j < |allocs| && allocs[j].name == x.name && allocs[j].current == x.current && allocs[j].weight == x.weight;
  }

  lemma GrownOutranks(x: Allocation, y: Allocation, allocs: seq<Allocation>, result: seq<ClusterTopology>,
                      remaining: real, total: nat, deficit: real, weight: real)
    requires weight > 0.0 && deficit > 0.0 && LargestFirst(allocs, true) && Carried(x, allocs) && Carried(y, allocs)
    requires AllGrown(allocs, remaining, total, deficit, weight)
    requires forall k :: 0 <= k < |allocs| ==> Replicas(result, allocs[k].name) == allocs[k].quota
    ensures Outranks(Replicas(result, x.name) - x.current, GrowthPart(x.current, x.weight, remaining, total, deficit, weight),
                     Replicas(result, y.name) - y.current, GrowthPart(y.current, y.weight, remaining, total, deficit, weight))
  {
    var m := FindCarried(x, allocs, result);
    var n := FindCarried(y, allocs, result);
    assert Grown(allocs[m], remaining, total, deficit, weight) && Grown(allocs[n], remaining, total, deficit, weight);
    assert Outranks(Change(allocs[m], true), allocs[m].share, Change(allocs[n], true), allocs[n].share);
  }

  lemma GrownResult(start: seq<Allocation>, allocs: seq<Allocation>, result: seq<ClusterTopology>, total: nat, deficit: real, weight: real)
    requires weight == Sum(Weights(start)) && weight > 0.0 && deficit == Sum(Deficits(start, total, weight)) && deficit > 0.0
    requires forall k :: 0 <= k < |start| ==> Carried(start[k], allocs)
    requires AllGrown(allocs, total as real - Sum(Currents(start)), total, deficit, weight)
    requires forall k :: 0 <= k < |allocs| ==> Replicas(result, allocs[k].name) == allocs[k].quota
    requires LargestFirst(allocs, true)
    ensures FairlyGrown(start, result, total)
  {
    var remaining := total as real - Sum(Currents(start));
    forall k | 0 <= k < |start|
      ensures GrownTo(start[k].current, start[k].weight, Replicas(result, start[k].name), remaining, total, deficit, weight)
    {
      var j := FindCarried(start[k], allocs, result);
      assert Grown(allocs[j], remaining, total, deficit, weight);
    }
    forall j, k | 0 <= j < |start| && 0 <= k < |start|
      ensures Outranks(Replicas(result, start[j].name) - start[j].current, GrowthPart(start[j].current, start[j].weight, remaining, total, deficit, weight),
                       Replicas(result, start[k].name) - start[k].current, GrowthPart(start[k].current, start[k].weight, remaining, total, deficit, weight))
    {
      GrownOutranks(start[j], start[k], allocs, result, remaining, total, deficit, weight);
    }
  }

  lemma ShrunkOutranks(x: Allocation, y: Allocation, allocs: seq<Allocation>, result: seq<ClusterTopology>,
                       toReduce: real, total: nat, surplus: real, weight: real)
    requires weight > 0.0 && surplus > 0.0 && LargestFirst(allocs, false) && Carried(x, allocs) && Carried(y, allocs)
    requires AllShrunk(allocs, toReduce, total, surplus, weight)
    requires forall k :: 0 <= k < |allocs| ==> Replicas(result, allocs[k].name) == allocs[k].quota
    ensures Outranks(x.current - Replicas(result, x.name), ReductionPart(x.current, x.weight, toReduce, total, surplus, weight),
                     y.current - Replicas(result, y.name), ReductionPart(y.current, y.weight, toReduce, total, surplus, weight))
  {
    var m := FindCarried(x, allocs, result);
    var n := FindCarried(y, allocs, result);
    assert Shrunk(allocs[m], toReduce, total, surplus, weight) && Shrunk(allocs[n], toReduce, total, surplus, weight);
    assert Outranks(Change(allocs[m], false), allocs[m].share, Change(allocs[n], false), allocs[n].share);
  }

  lemma ShrunkResult(start: seq<Allocation>, allocs: seq<Allocation>, result: seq<ClusterTopology>, total: nat, surplus: real, weight: real)
    requires weight == Sum(Weights(start)) && weight > 0.0 && surplus == Sum(Surpluses(start, total, weight))
    requires forall k :: 0 <= k < |start| ==> Carried(start[k], allocs)
    requires AllShrunk(allocs, Sum(Currents(start)) - total as real, total, surplus, weight)
    requires forall k :: 0 <= k < |allocs| ==> Replicas(result, allocs[k].name) == allocs[k].quota
    requires LargestFirst(allocs, false)
    ensures FairlyShrunk(start, result, total)
  {
    var toReduce := Sum(Currents(start)) - total as real;
    forall k | 0 <= k < |start|
      ensures ShrunkTo(start[k].current, start[k].weight, Replicas(result, start[k].name), toReduce, total, surplus, weight)
    {
      var j := FindCarried(start[k], allocs, result);
      assert Shrunk(allocs[j], toReduce, total, surplus, weight);
    }
    if surplus > 0.0 {
      forall j, k | 0 <= j < |start| && 0 <= k < |start|
        ensures Outranks(start[j].current - Replicas(result, start[j].name), ReductionPart(start[j].current, start[j].weight, toReduce, total, surplus, weight),
                         start[k].current - Replicas(result, start[k].name), ReductionPart(start[k].current, start[k].weight, toReduce, total, surplus, weight))
      {
        ShrunkOutranks(start[j], start[k], allocs, result, toReduce, total, surplus, weight);
      }
    }
  }

  /** The clusters in use and the best others, with weights, ready to be divided. */
  method ChooseCandidates(topology: seq<ClusterTopology>, scores: map<string, nat>, total: nat, maxClusters: int, minReplicas: int)
    returns (list: seq<Scored>, start: seq<Allocation>, totalWeight: real, currentTotal: nat)
    requires DistinctNames(topology) && scores != map[]
    ensures currentTotal == Total(topology) && Sum(Currents(start)) == Total(topology) as real
    ensures AreCandidates(list, topology, scores, ClusterLimit(maxClusters, minReplicas, |scores|, total))
    ensures start == StartOf(list, topology) && Weighted(start, totalWeight) && Starts(start, topology, scores)
  {
    var placement;
    placement, currentTotal := Gather(topology);
    var limit := ClusterLimit(maxClusters, minReplicas, |scores|, total);
    list := Candidates(placement, scores, limit);
    assert list != [] by {
      var n :| n in scores;
      assert Listed(list, n) || |list| >= limit;
    }
    start, totalWeight := Prepare(list, placement);
    CandidatesStart(list, placement, scores, topology, start);
    CandidatesRunEverything(topology, start);
    forall k | 0 <= k < |start| ensures start[k] == StartOf(list, topology)[k] {
      assert Starting((start[k].name, start[k].current), topology, scores);
    }
    assert start == StartOf(list, topology);
  }

  /**
    The spread strategy. The target is met exactly; a scale-up takes no replica from any
    cluster, a scale-down gives none, an unchanged total changes nothing, every candidate's
    change is a rounding of its fair share, and no more clusters get replicas than the limit
    or those in use.
  */
  method SelectClustersSpread(topology: seq<ClusterTopology>, scores: map<string, nat>, total: nat, maxClusters: int, minReplicas: int)
    returns (result: seq<ClusterTopology>, ghost list: seq<Scored>)
    requires DistinctNames(topology) && scores != map[]
    ensures Canonical(result) && Total(result) == total
    ensures AreCandidates(list, topology, scores, ClusterLimit(maxClusters, minReplicas, |scores|, total)) && |result| <= |list|
    ensures total > Total(topology) ==> FairlyGrown(StartOf(list, topology), result, total)
    ensures total <= Total(topology) ==> FairlyShrunk(StartOf(list, topology), result, total)
    ensures total > Total(topology) ==> forall n :: Replicas(topology, n) <= Replicas(result, n)
    ensures total <= Total(topology) ==> forall n :: Replicas(result, n) <= Replicas(topology, n)
    ensures total == Total(topology) ==> forall n :: Replicas(result, n) == Replicas(topology, n)
    ensures total == Total(topology) && Canonical(topology) ==> result == topology
    ensures forall n :: Replicas(result, n) > 0 ==> n in NamesOf(topology) || n in scores
    ensures WeighsScores(list, StartOf(list, topology), scores)
    ensures topology == [] ==> DividesByScore(list, scores, result, total)
  {
    var candidates, start, totalWeight, currentTotal := ChooseCandidates(topology, scores, total, maxClusters, minReplicas);
    list := candidates;
    if total > currentTotal {
      result := GrowPlacement(start, topology, scores, total, totalWeight);
    } else {
      result := ShrinkPlacement(start, topology, scores, total, totalWeight);
    }
    if total == Total(topology) && Canonical(topology) {
      CanonicalIsUnique(result, topology);
    }
    CandidatesWeighScores(list, topology, scores);
    if topology == [] {
      FirstDivision(list, scores, result, total);
    }
  }

  method GrowPlacement(start: seq<Allocation>, topology: seq<ClusterTopology>, scores: map<string, nat>, total: nat, totalWeight: real)
    returns (result: seq<ClusterTopology>)
    requires Weighted(start, totalWeight) && Starts(start, topology, scores) && Sum(Currents(start)) < total as real
    requires forall k :: 0 <= k < |start| ==> start[k].quota == start[k].current
    ensures Canonical(result) && Total(result) == total && |result| <= |start| && FairlyGrown(start, result, total)
    ensures forall n :: Replicas(topology, n) <= Replicas(result, n)
    ensures forall n :: Replicas(result, n) > 0 ==> n in NamesOf(topology) || n in scores
  {
    var allocs;
    ghost var deficit;
    allocs, deficit := Grow(start, total, totalWeight);
    result := Collect(allocs);
    GrowthFollows(start, allocs, topology, scores, result, total, deficit, totalWeight);
  }

  lemma GrowthFollows(start: seq<Allocation>, allocs: seq<Allocation>, topology: seq<ClusterTopology>, scores: map<string, nat>,
                      result: seq<ClusterTopology>, total: nat, deficit: real, weight: real)
    requires Starts(start, topology, scores) && multiset(Clusters(allocs)) == multiset(Clusters(start))
    requires weight == Sum(Weights(start)) && weight > 0.0 && deficit == Sum(Deficits(start, total, weight)) && deficit > 0.0
    requires forall k :: 0 <= k < |start| ==> Carried(start[k], allocs)
    requires forall k :: 0 <= k < |allocs| ==> allocs[k].current <= allocs[k].quota
    requires AllGrown(allocs, total as real - Sum(Currents(start)), total, deficit, weight)
    requires forall k :: 0 <= k < |allocs| ==> Replicas(result, allocs[k].name) == allocs[k].quota
    requires forall n :: (forall k :: 0 <= k < |allocs| ==> allocs[k].name != n) ==> Replicas(result, n) == 0
    requires LargestFirst(allocs, true)
    ensures FairlyGrown(start, result, total)
    ensures forall n :: Replicas(topology, n) <= Replicas(result, n)
    ensures forall n :: Replicas(result, n) > 0 ==> n in NamesOf(topology) || n in scores
  {
    StillStarts(start, allocs, topology, scores);
    GrownResult(start, allocs, result, total, deficit, weight);
    CountsFollow(allocs, topology, scores, result, true);
  }

  method ShrinkPlacement(start: seq<Allocation>, topology: seq<ClusterTopology>, scores: map<string, nat>, total: nat, totalWeight: real)
    returns (result: seq<ClusterTopology>)
    requires Weighted(start, totalWeight) && Starts(start, topology, scores) && Sum(Currents(start)) >= total as real
    requires forall k :: 0 <= k < |start| ==> start[k].quota == start[k].current
    ensures Canonical(result) && Total(result) == total && |result| <= |start| && FairlyShrunk(start, result, total)
    ensures forall n :: Replicas(result, n) <= Replicas(topology, n)
    ensures Sum(Currents(start)) == total as real ==> forall n :: Replicas(result, n) == Replicas(topology, n)
    ensures forall n :: Replicas(result, n) > 0 ==> n in NamesOf(topology) || n in scores
  {
    var allocs;
    ghost var surplus;
    allocs, surplus := Shrink(start, total, totalWeight);
    result := Collect(allocs);
    ReductionFollows(start, allocs, topology, scores, result, total, surplus, totalWeight);
  }

  lemma ReductionFollows(start: seq<Allocation>, allocs: seq<Allocation>, topology: seq<ClusterTopology>, scores: map<string, nat>,
                         result: seq<ClusterTopology>, total: nat, surplus: real, weight: real)
    requires Starts(start, topology, scores) && multiset(Clusters(allocs)) == multiset(Clusters(start))
    requires weight == Sum(Weights(start)) && weight > 0.0 && surplus == Sum(Surpluses(start, total, weight))
    requires forall k :: 0 <= k < |start| ==> Carried(start[k], allocs)
    requires forall k :: 0 <= k < |allocs| ==> allocs[k].quota <= allocs[k].current
    requires Sum(Currents(start)) == total as real ==> forall k :: 0 <= k < |allocs| ==> allocs[k].quota == allocs[k].current
    requires AllShrunk(allocs, Sum(Currents(start)) - total as real, total, surplus, weight)
    requires forall k :: 0 <= k < |allocs| ==> Replicas(result, allocs[k].name) == allocs[k].quota
    requires forall n :: (forall k :: 0 <= k < |allocs| ==> allocs[k].name != n) ==> Replicas(result, n) == 0
    requires LargestFirst(allocs, false)
    ensures FairlyShrunk(start, result, total)
    ensures forall n :: Replicas(result, n) <= Replicas(topology, n)
    ensures Sum(Currents(start)) == total as real ==> forall n :: Replicas(result, n) == Replicas(topology, n)
    ensures forall n :: Replicas(result, n) > 0 ==> n in NamesOf(topology) || n in scores
  {
    StillStarts(start, allocs, topology, scores);
    ShrunkResult(start, allocs, result, total, surplus, weight);
    CountsFollow(allocs, topology, scores, result, false);
    if Sum(Currents(start)) == total as real {
      UnchangedCounts(allocs, topology, scores, result);
    }
  }

  /** Cluster by cluster: growing loses nothing, shrinking gains nothing, nothing appears from nowhere. */
  lemma CountsFollow(allocs: seq<Allocation>, topology: seq<ClusterTopology>, scores: map<string, nat>, result: seq<ClusterTopology>, up: bool)
    requires Starts(allocs, topology, scores)
    requires forall k :: 0 <= k < |allocs| ==> Replicas(result, allocs[k].name) == allocs[k].quota
    requires forall n :: (forall k :: 0 <= k < |allocs| ==> allocs[k].name != n) ==> Replicas(result, n) == 0
    requires forall k :: 0 <= k < |allocs| ==> if up then allocs[k].current <= allocs[k].quota else allocs[k].quota <= allocs[k].current
    ensures up ==> forall n :: Replicas(topology, n) <= Replicas(result, n)
    ensures !up ==> forall n :: Replicas(result, n) <= Replicas(topology, n)
    ensures forall n :: Replicas(result, n) > 0 ==> n in NamesOf(topology) || n in scores
  {
    forall n
      ensures up ==> Replicas(topology, n) <= Replicas(result, n)
      ensures !up ==> Replicas(result, n) <= Replicas(topology, n)
      ensures Replicas(result, n) > 0 ==> n in NamesOf(topology) || n in scores
    {
      CompareCounts(allocs, topology, scores, result, n);
    }
  }

  lemma UnchangedCounts(allocs: seq<Allocation>, topology: seq<ClusterTopology>, scores: map<string, nat>, result: seq<ClusterTopology>)
    requires Starts(allocs, topology, scores)
    requires forall k :: 0 <= k < |allocs| ==> Replicas(result, allocs[k].name) == allocs[k].quota == allocs[k].current
    requires forall n :: (forall k :: 0 <= k < |allocs| ==> allocs[k].name != n) ==> Replicas(result, n) == 0
    ensures forall n :: Replicas(result, n) == Replicas(topology, n)
  {
    forall n ensures Replicas(result, n) == Replicas(topology, n) {
      CompareCounts(allocs, topology, scores, result, n);
    }
  }
}
