/**
  The affinity filter and the prefilter in front of it. The prefilter asks the label
  index for candidates; running any chain of filters that contains the affinity filter
  over the candidates finds the same clusters as running it over all of them.
*/
module Affinity {
  import opened Prelude
  import opened Names
  import opened LabelIndex

  datatype Operator = In | NotIn | Exists | DoesNotExist | Gt | Lt | Other

  datatype Requirement = Requirement(key: string, operator: Operator, values: seq<string>)

  datatype Term = Term(matchExpressions: seq<Requirement>, matchFields: seq<Requirement>)

  /** Go compares the strings bytewise for Gt and Lt. */
  predicate MatchExpression(e: Requirement, labels: Labels) {
    var known := e.key in labels;
    match e.operator
    case In => known && labels[e.key] in e.values
    case NotIn => known ==> labels[e.key] !in e.values
    case Exists => known
    case DoesNotExist => !known
    case Gt => known && |e.values| > 0 && Less(e.values[0], labels[e.key])
    case Lt => known && |e.values| > 0 && Less(labels[e.key], e.values[0])
    case Other => false
  }

  predicate MatchTerm(t: Term, labels: Labels) {
    && (forall i :: 0 <= i < |t.matchExpressions| ==> MatchExpression(t.matchExpressions[i], labels))
    && (forall i :: 0 <= i < |t.matchFields| ==> MatchExpression(t.matchFields[i], labels))
  }

  /** The filter: no requirement at all, or some term matches. */
  predicate Admits(required: Option<seq<Term>>, labels: Labels) {
    required.None? || exists i :: 0 <= i < |required.value| && MatchTerm(required.value[i], labels)
  }

  /** One requirement, operator by operator; a loop over the listed values stands behind In and NotIn. */
  method CheckExpression(e: Requirement, labels: Labels) returns (matched: bool)
    ensures matched == MatchExpression(e, labels)
    ensures e.operator == In ==> (matched <==> e.key in labels && exists j :: 0 <= j < |e.values| && e.values[j] == labels[e.key])
    ensures e.operator == NotIn ==> (matched <==> e.key !in labels || forall j :: 0 <= j < |e.values| ==> e.values[j] != labels[e.key])
    ensures e.operator == Exists ==> (matched <==> e.key in labels)
    ensures e.operator == DoesNotExist ==> (matched <==> e.key !in labels)
    ensures e.operator == Gt ==> (matched <==> e.key in labels && e.values != [] && Less(e.values[0], labels[e.key]))
    ensures e.operator == Lt ==> (matched <==> e.key in labels && e.values != [] && Less(labels[e.key], e.values[0]))
    ensures e.operator == Other ==> !matched
  {
    var known := e.key in labels;
    match e.operator {
      case In =>
        matched := false;
        if known {
          matched := Listed(labels[e.key], e.values);
        }
      case NotIn =>
        matched := true;
        if known {
          var listed := Listed(labels[e.key], e.values);
          matched := !listed;
        }
      case Exists => matched := known;
      case DoesNotExist => matched := !known;
      case Gt => matched := known && |e.values| > 0 && Less(e.values[0], labels[e.key]);
      case Lt => matched := known && |e.values| > 0 && Less(labels[e.key], e.values[0]);
      case Other => matched := false;
    }
  }

  method Listed(value: string, values: seq<string>) returns (found: bool)
    ensures found <==> exists j :: 0 <= j < |values| && values[j] == value
  {
    for i := 0 to |values|
      invariant forall j :: 0 <= j < i ==> values[j] != value
    {
      if values[i] == value {
        return true;
      }
    }
    found := false;
  }

  method CheckTerm(t: Term, labels: Labels) returns (matched: bool)
    ensures matched <==>
              && (forall i :: 0 <= i < |t.matchExpressions| ==> MatchExpression(t.matchExpressions[i], labels))
              && (forall i :: 0 <= i < |t.matchFields| ==> MatchExpression(t.matchFields[i], labels))
  {
    for i := 0 to |t.matchExpressions|
      invariant forall j :: 0 <= j < i ==> MatchExpression(t.matchExpressions[j], labels)
    {
      var fits := CheckExpression(t.matchExpressions[i], labels);
      if !fits {
        return false;
      }
    }
    for i := 0 to |t.matchFields|
      invariant forall j :: 0 <= j < i ==> MatchExpression(t.matchFields[j], labels)
    {
      var fits := CheckExpression(t.matchFields[i], labels);
      if !fits {
        return false;
      }
    }
    matched := true;
  }

  /** The affinity filter: without a requirement every cluster passes, otherwise one that fulfils some term entirely. */
  method AffinityFilter(required: Option<seq<Term>>, labels: Labels) returns (admitted: bool)
    ensures admitted == Admits(required, labels)
    ensures required.None? ==> admitted
    ensures required.Some? ==> (admitted <==> exists i :: 0 <= i < |required.value| && MatchTerm(required.value[i], labels))
  {
    if required.None? {
      return true;
    }
    for i := 0 to |required.value|
      invariant forall k :: 0 <= k < i ==> !MatchTerm(required.value[k], labels)
    {
      var fits := CheckTerm(required.value[i], labels);
      if fits {
        assert MatchTerm(required.value[i], labels);
        return true;
      }
    }
    admitted := false;
  }

  // ------------------------------------------------------------ the prefilter

  predicate Indexable(e: Requirement) {
    e.operator == In || e.operator == Exists
  }

  /** The names the index returns for one indexable expression. */
  method Lookup(e: Requirement, indexer: SimpleIndexer) returns (matches: set<string>)
    requires indexer.Valid() && Indexable(e)
    ensures forall n :: n in matches <==> n in indexer.clusterLabels && MatchExpression(e, indexer.clusterLabels[n])
  {
    if e.operator == Exists {
      matches := indexer.GetClustersByLabelKey(e.key);
    } else {
      matches := {};
      for i := 0 to |e.values|
        invariant forall n :: n in matches <==> exists j :: 0 <= j < i && multiset(Bucket(indexer.index, e.key, e.values[j]))[n] > 0
      {
        var names := indexer.GetClustersByLabel(e.key, e.values[i]);
        matches := matches + Elements(names);
        assert forall n :: n in Elements(names) <==> multiset(Bucket(indexer.index, e.key, e.values[i]))[n] > 0;
      }
      forall n ensures n in matches <==> n in indexer.clusterLabels && MatchExpression(e, indexer.clusterLabels[n]) {
        InIsSomeBucket(e, indexer.index, indexer.clusterLabels, n);
      }
    }
  }

  lemma InIsSomeBucket(e: Requirement, index: Index, labels: map<string, Labels>, n: string)
    requires Agrees(index, labels) && e.operator == In
    ensures (exists j :: 0 <= j < |e.values| && multiset(Bucket(index, e.key, e.values[j]))[n] > 0)
       <==> n in labels && MatchExpression(e, labels[n])
  {
    assert forall j :: 0 <= j < |e.values| ==> multiset(Bucket(index, e.key, e.values[j]))[n] == Due(labels, n, e.key, e.values[j]);
    if n in labels && MatchExpression(e, labels[n]) {
      var j :| 0 <= j < |e.values| && e.values[j] == labels[n][e.key];
      assert Due(labels, n, e.key, e.values[j]) == 1;
    }
  }

  /** The clusters that match every indexable expression of the first `m`. */
  ghost predicate MatchesIndexed(es: seq<Requirement>, m: nat, labels: Labels)
    requires m <= |es|
  {
    forall i :: 0 <= i < m && Indexable(es[i]) ==> MatchExpression(es[i], labels)
  }

  ghost predicate AnyIndexable(es: seq<Requirement>, m: nat)
    requires m <= |es|
  {
    exists i :: 0 <= i < m && Indexable(es[i])
  }

  /** Intersects the indexable expressions of a term; `None` when there is none. */
  method PrefilterTerm(t: Term, indexer: SimpleIndexer) returns (candidates: Option<set<string>>)
    requires indexer.Valid()
    ensures candidates.None? <==> !AnyIndexable(t.matchExpressions, |t.matchExpressions|)
    ensures candidates.Some? ==> forall n ::
      n in candidates.value <==> n in indexer.clusterLabels && MatchesIndexed(t.matchExpressions, |t.matchExpressions|, indexer.clusterLabels[n])
  {
    var es := t.matchExpressions;
    candidates := None;
    for i := 0 to |es|
      invariant candidates.None? <==> !AnyIndexable(es, i)
      invariant candidates.Some? ==> forall n ::
        n in candidates.value <==> n in indexer.clusterLabels && MatchesIndexed(es, i, indexer.clusterLabels[n])
    {
      if Indexable(es[i]) {
        var matches := Lookup(es[i], indexer);
        if candidates.None? {
          candidates := Some(matches);
        } else {
          candidates := Some(candidates.value * matches);
        }
        forall n | n in indexer.clusterLabels
          ensures n in candidates.value <==> MatchesIndexed(es, i + 1, indexer.clusterLabels[n])
        {
          MatchesNext(es, i, indexer.clusterLabels[n]);
        }
        if candidates.value == {} {
          assert AnyIndexable(es, |es|);
          NoneLeft(es, i + 1, indexer.clusterLabels);
          return;
        }
      }
    }
  }

  lemma MatchesNext(es: seq<Requirement>, i: nat, labels: Labels)
    requires i < |es| && Indexable(es[i])
    ensures MatchesIndexed(es, i + 1, labels) <==> MatchesIndexed(es, i, labels) && MatchExpression(es[i], labels)
  {
  }

  /** Once no cluster matches a prefix of the expressions, none matches them all. */
  lemma NoneLeft(es: seq<Requirement>, m: nat, labels: map<string, Labels>)
    requires m <= |es| && forall n :: n in labels ==> !MatchesIndexed(es, m, labels[n])
    ensures forall n :: n in labels ==> !MatchesIndexed(es, |es|, labels[n])
  {
    forall n | n in labels ensures !MatchesIndexed(es, |es|, labels[n]) {
      var i :| 0 <= i < m && Indexable(es[i]) && !MatchExpression(es[i], labels[n]);
    }
  }

  /** The candidates of an application among the clusters of a snapshot. */
  method PrefilterByAffinity(required: Option<seq<Term>>, clusters: map<string, Labels>, indexer: SimpleIndexer) returns (candidates: set<string>)
    requires indexer.Valid() && indexer.clusterLabels == clusters
    ensures candidates <= clusters.Keys
    ensures forall n :: n in clusters && Admits(required, clusters[n]) ==> n in candidates
  {
    if required.None? || |required.value| == 0 {
      return clusters.Keys;
    }
    var terms := required.value;
    candidates := {};
    for i := 0 to |terms|
      invariant candidates <= clusters.Keys
      invariant forall n, j :: n in clusters && 0 <= j < i && MatchTerm(terms[j], clusters[n]) ==> n in candidates
    {
      if |terms[i].matchFields| > 0 {
        return clusters.Keys;
      }
      var names := PrefilterTerm(terms[i], indexer);
      if names.None? {
        return clusters.Keys;
      }
      forall n | n in clusters && MatchTerm(terms[i], clusters[n]) ensures n in names.value {
        assert MatchesIndexed(terms[i].matchExpressions, |terms[i].matchExpressions|, clusters[n]);
      }
      candidates := candidates + names.value;
    }
  }

  // ------------------------------------------------------------- filter chain

  /** A filter plugin: what it says about each cluster of the snapshot. */
  type Filter = string -> bool

  /** The chain stops at the first filter that refuses. */
  method RunFilterPlugins(chain: seq<Filter>, cluster: string) returns (admitted: bool)
    ensures admitted <==> forall i :: 0 <= i < |chain| ==> chain[i](cluster)
  {
    for i := 0 to |chain|
      invariant forall j :: 0 <= j < i ==> chain[j](cluster)
    {
      if !chain[i](cluster) {
        return false;
      }
    }
    admitted := true;
  }

  ghost predicate Feasible(chain: seq<Filter>, cluster: string) {
    forall i :: 0 <= i < |chain| ==> chain[i](cluster)
  }

  method RunFilters(chain: seq<Filter>, clusters: set<string>) returns (feasible: set<string>)
    ensures forall n :: n in feasible <==> n in clusters && Feasible(chain, n)
  {
    feasible := {};
    var left := clusters;
    while left != {}
      invariant left <= clusters
      invariant forall n :: n in feasible <==> n in clusters && n !in left && Feasible(chain, n)
      decreases left
    {
      var name :| name in left;
      left := left - {name};
      var admitted := RunFilterPlugins(chain, name);
      if admitted {
        feasible := feasible + {name};
      }
    }
  }

  /** The chain has the affinity filter somewhere. */
  ghost predicate ChecksAffinity(chain: seq<Filter>, required: Option<seq<Term>>, clusters: map<string, Labels>) {
    exists i :: 0 <= i < |chain| && forall n :: n in clusters ==> chain[i](n) == Admits(required, clusters[n])
  }

  /**
    Prefiltering preserves meaning: for any terms, any operators and any other filters, the
    prefiltered chain finds exactly the clusters that the chain finds in the whole snapshot.
  */
  method FindFeasible(chain: seq<Filter>, required: Option<seq<Term>>, clusters: map<string, Labels>, indexer: SimpleIndexer)
    returns (feasible: set<string>)
    requires indexer.Valid() && indexer.clusterLabels == clusters
    requires ChecksAffinity(chain, required, clusters)
    ensures forall n :: n in feasible <==> n in clusters && Feasible(chain, n)
  {
    var candidates := PrefilterByAffinity(required, clusters, indexer);
    feasible := RunFilters(chain, candidates);
    forall n | n in clusters && Feasible(chain, n) ensures n in feasible {
      var i :| 0 <= i < |chain| && forall n :: n in clusters ==> chain[i](n) == Admits(required, clusters[n]);
      assert chain[i](n);
    }
  }
}
