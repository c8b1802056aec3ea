/**
  The scheduler's cluster cache: what each cluster reported, the applications assumed
  on it since, and the aggregate of their requests.
*/
module ClusterCache {
  import opened Prelude
  import opened LabelIndex
  import opened Quantities

  /** `used` is the allocation in the cluster's resource summary, if it reported one. */
  datatype ManagedCluster = ManagedCluster(name: string, labels: Labels, used: Option<Resources>)

  datatype Assumed = Assumed(resources: Resources, replicas: int)

  predicate NonNegative(r: Resources) {
    forall n :: n in r ==> r[n] >= 0
  }

  // --------------------------------------------------------------- aggregates

  /** What the assumed applications request of one resource together. */
  ghost function SumOf(assumed: map<string, Assumed>, name: string): int {
    if assumed == map[] then 0
    else
      var k :| k in assumed;
      Quantity(assumed[k].resources, name) + SumOf(assumed - {k}, name)
  }

  lemma {:induction false} SumWithout(assumed: map<string, Assumed>, key: string, name: string)
    requires key in assumed
    ensures SumOf(assumed, name) == Quantity(assumed[key].resources, name) + SumOf(assumed - {key}, name)
    decreases |assumed|
  {
    var k :| k in assumed && SumOf(assumed, name) == Quantity(assumed[k].resources, name) + SumOf(assumed - {k}, name);
    if k != key {
      SumWithout(assumed - {k}, key, name);
      SumWithout(assumed - {key}, k, name);
      assert assumed - {k} - {key} == assumed - {key} - {k};
    }
  }

  lemma SumWith(assumed: map<string, Assumed>, key: string, app: Assumed, name: string)
    requires key !in assumed
    ensures SumOf(assumed[key := app], name) == SumOf(assumed, name) + Quantity(app.resources, name)
  {
    SumWithout(assumed[key := app], key, name);
    assert assumed[key := app] - {key} == assumed;
  }

  ghost predicate NonNegativeApps(assumed: map<string, Assumed>) {
    forall k :: k in assumed ==> NonNegative(assumed[k].resources)
  }

  lemma {:induction false} SumIsNonNegative(assumed: map<string, Assumed>, name: string)
    requires NonNegativeApps(assumed)
    ensures SumOf(assumed, name) >= 0
    decreases |assumed|
  {
    if assumed != map[] {
      assert exists k :: k in assumed && SumOf(assumed, name) == Quantity(assumed[k].resources, name) + SumOf(assumed - {k}, name);
      var k :| k in assumed && SumOf(assumed, name) == Quantity(assumed[k].resources, name) + SumOf(assumed - {k}, name);
      assert NonNegative(assumed[k].resources);
      SumIsNonNegative(assumed - {k}, name);
    }
  }

  /** The aggregate shows, resource by resource, the sum over the assumed applications. */
  ghost predicate Aggregates(requested: Resources, assumed: map<string, Assumed>) {
    NonNegativeApps(assumed) && forall name :: Quantity(requested, name) == SumOf(assumed, name)
  }

  lemma AssumeKeepsAggregate(requested: Resources, after: Resources, assumed: map<string, Assumed>, key: string, app: Assumed)
    requires Aggregates(requested, assumed) && key !in assumed && NonNegative(app.resources)
    requires forall name :: Quantity(after, name) == Quantity(requested, name) + Quantity(app.resources, name)
    ensures Aggregates(after, assumed[key := app])
  {
    forall name ensures Quantity(after, name) == SumOf(assumed[key := app], name) {
      SumWith(assumed, key, app, name);
    }
  }

  /** Subtracting an application leaves no negative rest, so dropping entries that are not positive loses nothing. */
  lemma ForgetKeepsAggregate(requested: Resources, after: Resources, assumed: map<string, Assumed>, key: string)
    requires Aggregates(requested, assumed) && key in assumed
    requires forall name :: Quantity(after, name) == Reduced(requested, assumed[key].resources, name)
    ensures Aggregates(after, assumed - {key})
  {
    forall name ensures Quantity(after, name) == SumOf(assumed - {key}, name) {
      SumWithout(assumed, key, name);
      SumIsNonNegative(assumed - {key}, name);
    }
  }

  /** The rest after a subtraction that deletes entries which are not positive. */
  function Reduced(requested: Resources, taken: Resources, name: string): int {
    var rest := Quantity(requested, name) - Quantity(taken, name);
    if name in taken && rest <= 0 then 0 else rest
  }

  // ------------------------------------------------------------- cluster info

  class ClusterInfo {
    var cluster: ManagedCluster
    var requested: Resources
    var assumed: map<string, Assumed>

    constructor (cluster: ManagedCluster)
      ensures Valid() && this.cluster == cluster && assumed == map[]
    {
      this.cluster := cluster;
      requested, assumed := map[], map[];
    }

    ghost predicate Valid()
      reads this
    {
      Aggregates(requested, assumed)
    }

    method Clone() returns (clone: ClusterInfo)
      ensures fresh(clone) && clone.cluster == cluster && clone.requested == requested && clone.assumed == assumed
    {
      clone := new ClusterInfo(cluster);
      clone.requested := requested;
      clone.assumed := assumed;
    }

    /** The copy a snapshot holds: the aggregate is added to the reported allocation. */
    method CloneWithUsage() returns (clone: ClusterInfo)
      requires Valid()
      ensures fresh(clone) && clone.Valid()
      ensures clone.cluster == WithUsage(cluster, requested) && clone.requested == requested && clone.assumed == assumed
    {
      clone := Clone();
      clone.cluster := WithUsage(clone.cluster, clone.requested);
    }

    /** The request of one replica times the replicas, one at least. */
    static method Times(quantity: int, replicas: int) returns (total: int)
      ensures total == if replicas <= 1 then quantity else replicas * quantity
    {
      total := quantity;
      var i := 1;
      while i < replicas
        invariant 1 <= i && (i <= replicas || i == 1)
        invariant total == i * quantity
      {
        total := total + quantity;
        i := i + 1;
      }
    }

    /** Adds an application that is not assumed here yet. */
    method Assume(key: string, request: Resources, replicas: int)
      requires Valid() && key !in assumed && NonNegative(request)
      modifies this
      ensures Valid() && cluster == old(cluster)
      ensures assumed == old(assumed)[key := Assumed(Totals(request, replicas), replicas)]
      ensures forall name :: Quantity(requested, name) ==
                old(Quantity(requested, name)) + Quantity(request, name) * (if replicas > 1 then replicas else 1)
    {
      var totals: Resources := map[];
      var left := request.Keys;
      ghost var was := requested;
      while left != {}
        invariant left <= request.Keys
        invariant cluster == old(cluster) && assumed == old(assumed)
        invariant totals == Totals(request, replicas) - left
        invariant forall n :: Quantity(requested, n) == Quantity(was, n) + Quantity(totals, n)
        decreases left
      {
        var name :| name in left;
        var q := Times(request[name], replicas);
        left := left - {name};
        totals := totals[name := q];
        requested := requested[name := Quantity(requested, name) + q];
      }
      assert totals == Totals(request, replicas);
      TotalsAreNonNegative(request, replicas);
      TotalsCountReplicas(request, replicas);
      AssumeKeepsAggregate(was, requested, assumed, key, Assumed(totals, replicas));
      assumed := assumed[key := Assumed(totals, replicas)];
    }

    /** Takes an assumed application out again. */
    method Forget(key: string)
      requires Valid() && key in assumed
      modifies this
      ensures Valid() && cluster == old(cluster) && assumed == old(assumed) - {key}
    {
      var resources := assumed[key].resources;
      var left := resources.Keys;
      ghost var was := requested;
      while left != {}
        invariant left <= resources.Keys
        invariant cluster == old(cluster) && assumed == old(assumed)
        invariant forall n :: n in left ==> Quantity(requested, n) == Quantity(was, n)
        invariant forall n :: n !in left ==> Quantity(requested, n) == Reduced(was, resources, n)
        decreases left
      {
        var name :| name in left;
        left := left - {name};
        var rest := Quantity(requested, name) - resources[name];
        if rest <= 0 {
          requested := requested - {name};
        } else {
          requested := requested[name := rest];
        }
      }
      ForgetKeepsAggregate(was, requested, assumed, key);
      assumed := assumed - {key};
    }

    method ForgetIfAssumed(key: string)
      requires Valid()
      modifies this
      ensures Valid() && cluster == old(cluster) && assumed == old(assumed) - {key}
    {
      if key in assumed {
        Forget(key);
      }
    }
  }

  function Totals(request: Resources, replicas: int): Resources {
    map n | n in request :: if replicas <= 1 then request[n] else replicas * request[n]
  }

  /** The totals are the request of one replica times the replicas, one at least. */
  lemma TotalsCountReplicas(request: Resources, replicas: int)
    ensures forall name :: Quantity(Totals(request, replicas), name) == Quantity(request, name) * (if replicas > 1 then replicas else 1)
  {
  }

  lemma TotalsAreNonNegative(request: Resources, replicas: int)
    requires NonNegative(request)
    ensures NonNegative(Totals(request, replicas))
  {
    forall n | n in request ensures Totals(request, replicas)[n] >= 0 {
      assert replicas > 1 ==> replicas * request[n] >= 0;
    }
  }

  // ----------------------------------------------------------------- the cache

  datatype CacheError = AlreadyExists | DoesNotExist

  /** What a snapshot shows for a cluster: the reported allocation plus the aggregate, if it reported any. */
  function WithUsage(c: ManagedCluster, requested: Resources): ManagedCluster {
    if c.used.None? then c
    else c.(used := Some(map n | n in c.used.value.Keys + requested.Keys :: Quantity(c.used.value, n) + Quantity(requested, n)))
  }

  class Cache {
    var clusters: map<string, ClusterInfo>
    const indexer: SimpleIndexer

    constructor ()
      ensures Valid() && clusters == map[] && fresh(indexer)
    {
      clusters := map[];
      indexer := new SimpleIndexer();
    }

    /** The entries hold their aggregates, no two clusters share one, and the index carries the clusters' labels. */
    ghost predicate Valid()
      reads this, indexer, clusters.Values
    {
      && (forall n :: n in clusters ==> clusters[n].Valid())
      && (forall m, n :: m in clusters && n in clusters && clusters[m] == clusters[n] ==> m == n)
      && indexer.Valid() && IndexCarriesLabels()
    }

    ghost predicate IndexCarriesLabels()
      reads this, indexer, clusters.Values
    {
      && indexer.clusterLabels.Keys == clusters.Keys
      && forall n :: n in clusters ==> indexer.clusterLabels[n] == clusters[n].cluster.labels
    }

    method AddCluster(cluster: ManagedCluster) returns (error: Option<CacheError>)
      requires Valid()
      modifies this, indexer
      ensures Valid()
      ensures cluster.name in old(clusters) ==> error == Some(AlreadyExists) && clusters == old(clusters)
      ensures cluster.name !in old(clusters) ==>
        && error == None && cluster.name in clusters && fresh(clusters[cluster.name])
        && clusters == old(clusters)[cluster.name := clusters[cluster.name]]
        && clusters[cluster.name].cluster == cluster && clusters[cluster.name].assumed == map[]
    {
      if cluster.name in clusters {
        return Some(AlreadyExists);
      }
      var info := new ClusterInfo(cluster);
      clusters := clusters[cluster.name := info];
      indexer.Add(cluster.name, cluster.labels);
      error := None;
    }

    /** A report on a known cluster; the assumed applications stay. */
    method UpdateCluster(cluster: ManagedCluster) returns (error: Option<CacheError>)
      requires Valid()
      modifies if cluster.name in clusters then {clusters[cluster.name]} else {}, indexer
      ensures Valid()
      ensures error == if cluster.name in clusters then None else Some(DoesNotExist)
      ensures cluster.name in clusters ==>
        clusters[cluster.name].cluster == cluster && clusters[cluster.name].assumed == old(clusters[cluster.name].assumed)
    {
      if cluster.name !in clusters {
        return Some(DoesNotExist);
      }
      var info := clusters[cluster.name];
      info.cluster := cluster;
      indexer.Relabel(cluster.name, cluster.labels);
      error := None;
    }

    method RemoveCluster(name: string) returns (error: Option<CacheError>)
      requires Valid()
      modifies this, indexer
      ensures Valid()
      ensures error == if name in old(clusters) then None else Some(DoesNotExist)
      ensures clusters == old(clusters) - {name}
    {
      if name !in clusters {
        return Some(DoesNotExist);
      }
      clusters := clusters - {name};
      indexer.Remove(name);
      error := None;
    }

    /** Assumes an application on a cluster; one already assumed there, or without a readable template, changes nothing. */
    method AssumeApplication(key: string, request: Option<Resources>, name: string, replicas: int) returns (error: Option<CacheError>)
      requires Valid() && (request.Some? ==> NonNegative(request.value))
      modifies if name in clusters then {clusters[name]} else {}
      ensures Valid()
      ensures error == if name in clusters then None else Some(DoesNotExist)
      ensures name in clusters ==>
        && clusters[name].cluster == old(clusters[name].cluster)
        && clusters[name].assumed ==
             if request.None? || key in old(clusters[name].assumed) then old(clusters[name].assumed)
             else old(clusters[name].assumed)[key := Assumed(Totals(request.value, replicas), replicas)]
      ensures name in clusters ==>
        forall n :: Quantity(clusters[name].requested, n) == old(Quantity(clusters[name].requested, n)) +
                      if request.None? || key in old(clusters[name].assumed) then 0
                      else Quantity(request.value, n) * (if replicas > 1 then replicas else 1)
    {
      if name !in clusters {
        return Some(DoesNotExist);
      }
      error := None;
      var info := clusters[name];
      if request.Some? && key !in info.assumed {
        info.Assume(key, request.value, replicas);
      }
    }

    method ForgetApplication(key: string, name: string) returns (error: Option<CacheError>)
      requires Valid()
      modifies if name in clusters then {clusters[name]} else {}
      ensures Valid()
      ensures error == if name in clusters then None else Some(DoesNotExist)
      ensures name in clusters ==>
        clusters[name].cluster == old(clusters[name].cluster) && clusters[name].assumed == old(clusters[name].assumed) - {key}
    {
      if name !in clusters {
        return Some(DoesNotExist);
      }
      error := None;
      clusters[name].ForgetIfAssumed(key);
    }

    /** Forgets an application on every cluster. */
    method RemoveAssumedApplication(key: string)
      requires Valid()
      modifies clusters.Values
      ensures Valid()
      ensures forall n :: n in clusters ==>
        clusters[n].cluster == old(clusters[n].cluster) && clusters[n].assumed == old(clusters[n].assumed) - {key}
    {
      var left := clusters.Keys;
      while left != {}
        invariant left <= clusters.Keys
        invariant forall n :: n in clusters ==> clusters[n].Valid()
        invariant forall n :: n in clusters ==> clusters[n].cluster == old(clusters[n].cluster)
        invariant forall n :: n in clusters ==>
          clusters[n].assumed == if n in left then old(clusters[n].assumed) else old(clusters[n].assumed) - {key}
        decreases left
      {
        var name :| name in left;
        left := left - {name};
        clusters[name].ForgetIfAssumed(key);
      }
    }

    /** Copies of every entry with its usage applied, in fresh objects, and a copy of the index. */
    method Snapshot() returns (copies: map<string, ClusterInfo>, index: SimpleIndexer)
      requires Valid()
      ensures copies.Keys == clusters.Keys && fresh(index) && index.Valid()
      ensures index.clusterLabels.Keys == clusters.Keys
      ensures forall n :: n in clusters ==> index.clusterLabels[n] == clusters[n].cluster.labels
      ensures forall n :: n in copies ==> fresh(copies[n]) && copies[n].Valid() && copies[n].assumed == clusters[n].assumed
      ensures forall n :: n in copies ==> copies[n].cluster == WithUsage(clusters[n].cluster, clusters[n].requested)
    {
      copies := map[];
      var left := clusters.Keys;
      while left != {}
        invariant left <= clusters.Keys && copies.Keys == clusters.Keys - left
        invariant forall n :: n in copies ==> fresh(copies[n]) && copies[n].Valid() && copies[n].assumed == clusters[n].assumed
        invariant forall n :: n in copies ==> copies[n].cluster == WithUsage(clusters[n].cluster, clusters[n].requested)
        decreases left
      {
        var name :| name in left;
        left := left - {name};
        var copy := clusters[name].CloneWithUsage();
        copies := copies[name := copy];
      }
      index := indexer.Clone();
    }
  }

  /** A snapshot shows, for every resource, what the cluster reported plus what is assumed on it. */
  lemma SnapshotShowsReportedPlusAssumed(c: ManagedCluster, requested: Resources, assumed: map<string, Assumed>, name: string)
    requires Aggregates(requested, assumed) && c.used.Some?
    ensures WithUsage(c, requested).used.Some?
    ensures Quantity(WithUsage(c, requested).used.value, name) == Quantity(c.used.value, name) + SumOf(assumed, name)
  {
    assert Quantity(requested, name) == SumOf(assumed, name);
  }
}
