/** A placement as the application's status lists it: clusters with their replica counts. */
module Placement {
  import opened Names

  datatype ClusterTopology = ClusterTopology(name: string, replicas: nat)

  predicate DistinctNames(t: seq<ClusterTopology>) {
    forall i, j :: 0 <= i < j < |t| ==> t[i].name != t[j].name
  }

  function Total(t: seq<ClusterTopology>): nat {
    if t == [] then 0 else Total(t[..|t| - 1]) + t[|t| - 1].replicas
  }

  /** The replicas a placement gives a cluster; the last entry for the name counts. */
  function Replicas(t: seq<ClusterTopology>, name: string): nat {
    if t == [] then 0
    else if t[|t| - 1].name == name then t[|t| - 1].replicas
    else Replicas(t[..|t| - 1], name)
  }

  function NamesOf(t: seq<ClusterTopology>): seq<string> {
    seq(|t|, i requires 0 <= i < |t| => t[i].name)
  }

  /** What the scheduler writes: sorted by name, no empty entries. */
  predicate Canonical(t: seq<ClusterTopology>) {
    Increasing(NamesOf(t)) && forall i :: 0 <= i < |t| ==> t[i].replicas > 0
  }

  lemma TotalNext(t: seq<ClusterTopology>, i: nat)
    requires i < |t|
    ensures Total(t[..i + 1]) == Total(t[..i]) + t[i].replicas
  {
    assert t[..i + 1][..i] == t[..i];
  }

  lemma {:induction false} TotalConcat(a: seq<ClusterTopology>, b: seq<ClusterTopology>)
    ensures Total(a + b) == Total(a) + Total(b)
  {
    if b == [] {
      assert a + b == a;
    } else {
      TotalConcat(a, b[..|b| - 1]);
      assert (a + b)[..|a + b| - 1] == a + b[..|b| - 1];
    }
  }

  lemma {:induction false} ReplicasAt(t: seq<ClusterTopology>, i: nat)
    requires DistinctNames(t) && i < |t|
    ensures Replicas(t, t[i].name) == t[i].replicas
  {
    if i < |t| - 1 {
      ReplicasAt(t[..|t| - 1], i);
    }
  }

  lemma {:induction false} ReplicasAbsent(t: seq<ClusterTopology>, name: string)
    requires forall i :: 0 <= i < |t| ==> t[i].name != name
    ensures Replicas(t, name) == 0
  {
    if t != [] {
      ReplicasAbsent(t[..|t| - 1], name);
    }
  }

  lemma CanonicalIsDistinct(t: seq<ClusterTopology>)
    requires Canonical(t)
    ensures DistinctNames(t)
  {
    forall i, j | 0 <= i < j < |t| ensures t[i].name != t[j].name {
      assert Less(NamesOf(t)[i], NamesOf(t)[j]);
      LessIsTotal(t[i].name, t[j].name);
    }
  }

  /** A canonical placement names a cluster iff it gives it a replica. */
  lemma CanonicalNames(t: seq<ClusterTopology>, name: string)
    requires Canonical(t)
    ensures name in NamesOf(t) <==> Replicas(t, name) > 0
  {
    CanonicalIsDistinct(t);
    if name in NamesOf(t) {
      var i :| 0 <= i < |t| && NamesOf(t)[i] == name;
      ReplicasAt(t, i);
    } else {
      assert forall i :: 0 <= i < |t| ==> NamesOf(t)[i] == t[i].name;
      ReplicasAbsent(t, name);
    }
  }

  /** Two canonical placements that agree on every cluster are the same list. */
  lemma CanonicalIsUnique(a: seq<ClusterTopology>, b: seq<ClusterTopology>)
    requires Canonical(a) && Canonical(b)
    requires forall n :: Replicas(a, n) == Replicas(b, n)
    ensures a == b
  {
    forall n ensures n in NamesOf(a) <==> n in NamesOf(b) {
      CanonicalNames(a, n);
      CanonicalNames(b, n);
      assert Replicas(a, n) == Replicas(b, n);
    }
    IncreasingIsUnique(NamesOf(a), NamesOf(b));
    CanonicalIsDistinct(a);
    CanonicalIsDistinct(b);
    forall i | 0 <= i < |a| ensures a[i] == b[i] {
      assert NamesOf(a)[i] == NamesOf(b)[i];
      ReplicasAt(a, i);
      ReplicasAt(b, i);
    }
  }

  /** The placement as a map, and its total. */
  method Gather(topology: seq<ClusterTopology>) returns (placement: map<string, nat>, total: nat)
    ensures total == Total(topology) && |placement| <= |topology|
    ensures forall n :: n in placement <==> n in NamesOf(topology)
    ensures forall n :: n in placement ==> placement[n] == Replicas(topology, n)
  {
    placement, total := map[], 0;
    for i := 0 to |topology|
      invariant total == Total(topology[..i]) && |placement| <= i
      invariant forall n :: n in placement <==> n in NamesOf(topology[..i])
      invariant forall n :: n in placement ==> placement[n] == Replicas(topology[..i], n)
    {
      assert topology[..i + 1][..i] == topology[..i];
      assert NamesOf(topology[..i + 1]) == NamesOf(topology[..i]) + [topology[i].name];
      placement := placement[topology[i].name := topology[i].replicas];
      total := total + topology[i].replicas;
    }
    assert topology[..|topology|] == topology;
  }
}
