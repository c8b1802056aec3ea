/**
  Numbers the placement strategies rely on: final scores between 0 and 100, the single
  best cluster, and how many replicas fit a cluster.
*/
module Scoring {
  import opened Names
  import opened Quantities

  /** All scores equal. */
  ghost predicate Flat(raw: map<string, int>) {
    forall m, n :: m in raw && n in raw ==> raw[m] == raw[n]
  }

  /** The scores rescaled to 0..100 in their order, the worst to 0 and the best to 100; equal scores become 50. */
  ghost predicate Rescales(raw: map<string, int>, scores: map<string, int>) {
    && scores.Keys == raw.Keys
    && (forall n :: n in scores ==> 0 <= scores[n] <= 100)
    && (forall m, n :: m in raw && n in raw && raw[m] <= raw[n] ==> scores[m] <= scores[n])
    && (Flat(raw) ==> forall n :: n in scores ==> scores[n] == 50)
    && (!Flat(raw) ==> (exists m :: m in scores && scores[m] == 0) && (exists m :: m in scores && scores[m] == 100))
    && (!Flat(raw) ==> forall lo, hi, n :: lo in raw && hi in raw && n in raw && Extremal(raw, lo, hi) ==>
          Proportional(scores[n], raw[n], raw[lo], raw[hi]))
  }

  ghost predicate Extremal(raw: map<string, int>, lo: string, hi: string)
    requires lo in raw && hi in raw
  {
    forall n :: n in raw ==> raw[lo] <= raw[n] <= raw[hi]
  }

  /** A score stands between the least and the largest one as it did before, rounded down to a hundredth. */
  predicate Proportional(score: int, value: int, least: int, largest: int) {
    score * (largest - least) <= (value - least) * 100 < (score + 1) * (largest - least)
  }

  method NormalizeFinalScores(raw: map<string, int>) returns (scores: map<string, int>)
    ensures Rescales(raw, scores)
  {
    scores := raw;
    if raw == map[] {
      return;
    }
    var min, max := Extremes(raw);
    var left := raw.Keys;
    while left != {}
      invariant left <= raw.Keys == scores.Keys
      invariant forall n :: n in left ==> scores[n] == raw[n]
      invariant forall n :: n in raw && n !in left ==> scores[n] == Scaled(raw[n], raw[min], raw[max])
      decreases left
    {
      var name :| name in left;
      left := left - {name};
      scores := scores[name := Scaled(scores[name], raw[min], raw[max])];
    }
    ScaledRescales(raw, scores, min, max);
  }

  function Scaled(score: int, min: int, max: int): int {
    if min >= max then 50 else (score - min) * 100 / (max - min)
  }

  lemma ScaledRescales(raw: map<string, int>, scores: map<string, int>, min: string, max: string)
    requires scores.Keys == raw.Keys && min in raw && max in raw
    requires forall n :: n in raw ==> raw[min] <= raw[n] <= raw[max]
    requires forall n :: n in raw ==> scores[n] == Scaled(raw[n], raw[min], raw[max])
    ensures Rescales(raw, scores)
  {
    forall m, n | m in raw && n in raw && raw[m] <= raw[n] ensures 0 <= scores[m] <= scores[n] <= 100 {
      ScaledIsMonotone(raw[m], raw[n], raw[min], raw[max]);
    }
    if !Flat(raw) {
      forall lo, hi, n | lo in raw && hi in raw && n in raw && Extremal(raw, lo, hi)
        ensures Proportional(scores[n], raw[n], raw[lo], raw[hi])
      {
        assert raw[lo] == raw[min] && raw[hi] == raw[max];
        ScaledIsProportional(raw[n], raw[min], raw[max]);
      }
    }
    ScaledEnds(raw[min], raw[max]);
    assert Flat(raw) ==> raw[min] == raw[max];
    assert !Flat(raw) ==> scores[min] == 0 && scores[max] == 100;
  }

  lemma ScaledIsProportional(value: int, min: int, max: int)
    requires min <= value <= max && min < max
    ensures Proportional(Scaled(value, min, max), value, min, max)
  {
    QuotientBounds((value - min) * 100, max - min);
  }

  lemma QuotientBounds(x: int, d: int)
    requires d > 0
    ensures x / d * d <= x < (x / d + 1) * d
  {
  }

  lemma ScaledEnds(min: int, max: int)
    requires min <= max
    ensures min < max ==> Scaled(min, min, max) == 0 && Scaled(max, min, max) == 100
  {
    if min < max {
      QuotientIsLargest((max - min) * 100, max - min, 100);
      QuotientIsLargest((max - min) * 100, max - min, 101);
    }
  }

  lemma ScaledIsMonotone(a: int, b: int, min: int, max: int)
    requires min <= a <= b <= max
    ensures 0 <= Scaled(a, min, max) <= Scaled(b, min, max) <= 100
  {
    if min < max {
      ScaledEnds(min, max);
      DivisionIsMonotone(0, (a - min) * 100, max - min);
      DivisionIsMonotone((a - min) * 100, (b - min) * 100, max - min);
      DivisionIsMonotone((b - min) * 100, (max - min) * 100, max - min);
    }
  }

  lemma DivisionIsMonotone(x: int, y: int, d: int)
    requires 0 < d && x <= y
    ensures x / d <= y / d
  {
    var p, q := x / d, y / d;
    assert x == d * p + x % d && y == d * q + y % d;
    ProductGrows(d, q, p);
  }

  lemma {:induction false} ProductGrows(d: nat, q: int, p: int)
    ensures p > q ==> d * p >= d * q + d
    decreases p - q
  {
    if p > q {
      assert d * p == d * (p - 1) + d;
      ProductGrows(d, q, p - 1);
    }
  }

  method Extremes(raw: map<string, int>) returns (min: string, max: string)
    requires raw != map[]
    ensures min in raw && max in raw
    ensures forall n :: n in raw ==> raw[min] <= raw[n] <= raw[max]
  {
    var first :| first in raw;
    min, max := first, first;
    var left := raw.Keys - {first};
    while left != {}
      invariant left <= raw.Keys && min in raw && max in raw
      invariant forall n :: n in raw && n !in left ==> raw[min] <= raw[n] <= raw[max]
      decreases left
    {
      var name :| name in left;
      left := left - {name};
      if raw[name] < raw[min] {
        min := name;
      }
      if raw[name] > raw[max] {
        max := name;
      }
    }
  }

  /** The best scored cluster, the first in name order among equals. */
  method SelectCluster(scores: map<string, int>) returns (selected: string)
    requires scores != map[] && forall n :: n in scores ==> scores[n] >= 0
    ensures selected in scores
    ensures forall n :: n in scores && n != selected ==>
      scores[n] < scores[selected] || (scores[n] == scores[selected] && Less(selected, n))
  {
    var keys := Sorted(scores.Keys);
    selected := "";
    var best := -1;
    for i := 0 to |keys|
      invariant i == 0 ==> best == -1
      invariant i > 0 ==> exists k :: 0 <= k < i && keys[k] == selected
      invariant i > 0 ==> selected in scores && best == scores[selected]
      invariant forall k :: 0 <= k < i && keys[k] != selected ==>
        scores[keys[k]] < best || (scores[keys[k]] == best && Less(selected, keys[k]))
    {
      if scores[keys[i]] > best {
        selected, best := keys[i], scores[keys[i]];
      }
    }
    var n :| n in scores;
    assert n in keys;
  }

  // ---------------------------------------------------------------- capacity

  const MAX_INT64: int := 0x7fff_ffff_ffff_ffff

  function Available(allocatable: Resources, inUse: Resources, name: string): int {
    Quantity(allocatable, name) - Quantity(inUse, name)
  }

  /** `m` replicas fit: every resource has something left, and enough for all of them. */
  predicate Fits(request: map<string, nat>, allocatable: Resources, inUse: Resources, m: nat) {
    forall n :: n in request ==> 0 < Available(allocatable, inUse, n) && m * request[n] <= Available(allocatable, inUse, n)
  }

  /** How many replicas one requested resource has room for. */
  function Room(request: map<string, nat>, allocatable: Resources, inUse: Resources, n: string): int
    requires n in request && request[n] > 0
  {
    Available(allocatable, inUse, n) / request[n]
  }

  /** A requested resource with room for fewer replicas than the largest 64-bit integer. */
  predicate Binds(request: map<string, nat>, allocatable: Resources, inUse: Resources, n: string) {
    n in request && request[n] > 0 && Room(request, allocatable, inUse, n) < MAX_INT64
  }

  lemma QuotientIsLargest(available: int, request: nat, m: nat)
    requires available >= 0 && request > 0
    ensures m <= available / request <==> m * request <= available
  {
    if m <= available / request {
      assert m * request <= (available / request) * request;
    } else {
      assert m * request >= (available / request + 1) * request;
    }
  }

  lemma FitsFewer(available: int, request: nat, few: nat, many: nat)
    requires few <= many
    ensures many * request <= available ==> few * request <= available
  {
    assert few * request <= many * request;
  }

  predicate Exhausted(request: map<string, nat>, allocatable: Resources, inUse: Resources) {
    exists n :: n in request && Available(allocatable, inUse, n) <= 0
  }

  /** The least room over the requested resources, capped at the largest 64-bit integer. */
  ghost predicate IsLeastRoom(request: map<string, nat>, allocatable: Resources, inUse: Resources, names: set<string>, least: int)
    requires names <= request.Keys
  {
    && 0 <= least <= MAX_INT64
    && (forall n :: n in names && request[n] > 0 ==> least <= Room(request, allocatable, inUse, n))
    && (least < MAX_INT64 ==> exists n :: n in names && request[n] > 0 && least == Room(request, allocatable, inUse, n))
  }

  /** What is left decides: a number of replicas fits iff it is at most the answer; without a binding resource the answer is none. */
  ghost predicate Decides(request: map<string, nat>, allocatable: Resources, inUse: Resources, most: int) {
    if exists n :: Binds(request, allocatable, inUse, n) then forall m: nat :: m <= most <==> Fits(request, allocatable, inUse, m)
    else most == 0
  }

  /** The most replicas that fit; a cluster that reports no resources takes none. */
  method CalculateMaxReplicas(request: map<string, nat>, reported: bool, allocatable: Resources, inUse: Resources) returns (most: int)
    ensures request == map[] ==> most == 9223372036854775807
    ensures request != map[] && (!reported || Exhausted(request, allocatable, inUse)) ==> most == 0
    ensures request != map[] && reported && !Exhausted(request, allocatable, inUse) ==> most >= 0 && Decides(request, allocatable, inUse, most)
    ensures (exists n :: n in request && Quantity(inUse, n) >= Quantity(allocatable, n)) ==> most == 0
    ensures 0 < most && request != map[] ==> reported && IsMost(request, allocatable, inUse, most)
  {
    if request == map[] {
      return MAX_INT64;
    }
    if !reported {
      return 0;
    }
    var exhausted, least := LeastRoom(request, allocatable, inUse);
    if exhausted {
      return 0;
    }
    most := if least == MAX_INT64 then 0 else least;
    LeastDecides(request, allocatable, inUse, least);
    if most > 0 {
      MostIsMost(request, allocatable, inUse, most);
    }
  }

  /** So many replicas fit beside what is in use, resource by resource, and one more does not. */
  ghost predicate IsMost(request: map<string, nat>, allocatable: Resources, inUse: Resources, most: int) {
    && (forall n :: n in request ==> Quantity(inUse, n) + most * request[n] <= Quantity(allocatable, n))
    && exists n :: n in request && Quantity(inUse, n) + (most + 1) * request[n] > Quantity(allocatable, n)
  }

  lemma MostIsMost(request: map<string, nat>, allocatable: Resources, inUse: Resources, most: nat)
    requires most > 0 && !Exhausted(request, allocatable, inUse) && Decides(request, allocatable, inUse, most)
    ensures IsMost(request, allocatable, inUse, most)
  {
    assert Fits(request, allocatable, inUse, most) && !Fits(request, allocatable, inUse, most + 1);
    var n :| n in request && !(0 < Available(allocatable, inUse, n) && (most + 1) * request[n] <= Available(allocatable, inUse, n));
    assert Available(allocatable, inUse, n) > 0;
  }

  method LeastRoom(request: map<string, nat>, allocatable: Resources, inUse: Resources) returns (exhausted: bool, least: int)
    ensures exhausted <==> Exhausted(request, allocatable, inUse)
    ensures !exhausted ==> IsLeastRoom(request, allocatable, inUse, request.Keys, least)
  {
    exhausted, least := false, MAX_INT64;
    var left := request.Keys;
    while left != {}
      invariant left <= request.Keys && !exhausted
      invariant forall n :: n in request && n !in left ==> Available(allocatable, inUse, n) > 0
      invariant IsLeastRoom(request, allocatable, inUse, request.Keys - left, least)
      decreases left
    {
      var name :| name in left;
      var available := Quantity(allocatable, name) - Quantity(inUse, name);
      if available <= 0 {
        return true, 0;
      }
      var room := if request[name] == 0 then MAX_INT64 else available / request[name];
      NextLeast(request, allocatable, inUse, request.Keys - left, least, name);
      if request[name] != 0 && room < least {
        least := room;
      }
      assert request.Keys - (left - {name}) == (request.Keys - left) + {name};
      left := left - {name};
    }
    assert request.Keys - left == request.Keys;
  }

  lemma NextLeast(request: map<string, nat>, allocatable: Resources, inUse: Resources, names: set<string>, least: int, name: string)
    requires names <= request.Keys && name in request && Available(allocatable, inUse, name) > 0
    requires IsLeastRoom(request, allocatable, inUse, names, least)
    ensures request[name] > 0 && Room(request, allocatable, inUse, name) < least ==>
              IsLeastRoom(request, allocatable, inUse, names + {name}, Room(request, allocatable, inUse, name))
    ensures !(request[name] > 0 && Room(request, allocatable, inUse, name) < least) ==>
              IsLeastRoom(request, allocatable, inUse, names + {name}, least)
  {
    if request[name] > 0 {
      RoomIsNonNegative(request, allocatable, inUse, name);
    }
  }

  lemma RoomIsNonNegative(request: map<string, nat>, allocatable: Resources, inUse: Resources, name: string)
    requires name in request && request[name] > 0 && Available(allocatable, inUse, name) > 0
    ensures Room(request, allocatable, inUse, name) >= 0
  {
    QuotientIsLargest(Available(allocatable, inUse, name), request[name], 0);
  }

  lemma LeastDecides(request: map<string, nat>, allocatable: Resources, inUse: Resources, least: int)
    requires !Exhausted(request, allocatable, inUse) && IsLeastRoom(request, allocatable, inUse, request.Keys, least)
    ensures Decides(request, allocatable, inUse, if least == MAX_INT64 then 0 else least)
  {
    if n :| Binds(request, allocatable, inUse, n) {
      assert least <= Room(request, allocatable, inUse, n);
    }
    if least < MAX_INT64 {
      var n :| n in request && request[n] > 0 && least == Room(request, allocatable, inUse, n);
      assert Binds(request, allocatable, inUse, n);
      LeastIsMost(request, allocatable, inUse, least);
    }
  }

  lemma LeastIsMost(request: map<string, nat>, allocatable: Resources, inUse: Resources, least: int)
    requires 0 <= least && forall n :: n in request ==> Available(allocatable, inUse, n) > 0
    requires forall n :: n in request && request[n] > 0 ==> least <= Room(request, allocatable, inUse, n)
    requires exists n :: n in request && request[n] > 0 && least == Room(request, allocatable, inUse, n)
    ensures forall m: nat :: m <= least <==> Fits(request, allocatable, inUse, m)
  {
    forall m: nat ensures m <= least <==> Fits(request, allocatable, inUse, m) {
      forall n | n in request && request[n] > 0
        ensures m <= Room(request, allocatable, inUse, n) <==> m * request[n] <= Available(allocatable, inUse, n)
      {
        QuotientIsLargest(Available(allocatable, inUse, n), request[n], m);
      }
    }
  }
}
