/**
  The scheduler's inverted index from labels to cluster names. Go maps are
  map-valued fields that the methods reassign; the loops over a label map visit
  its keys in any order.
*/
module LabelIndex {
  type Labels = map<string, string>
  type Index = map<string, map<string, seq<string>>>

  predicate Carries(labels: Labels, key: string, value: string) {
    key in labels && labels[key] == value
  }

  /** The names listed under key and value. */
  function Bucket(index: Index, key: string, value: string): seq<string> {
    if key in index && value in index[key] then index[key][value] else []
  }

  /** No empty bucket and no key without buckets. */
  ghost predicate Tidy(index: Index) {
    forall k :: k in index ==> index[k] != map[] && TidyValues(index[k])
  }

  ghost predicate TidyValues(values: map<string, seq<string>>) {
    forall v :: v in values ==> values[v] != []
  }

  /** How often the labels of the known clusters say a name is to be listed. */
  function Due(labels: map<string, Labels>, name: string, key: string, value: string): nat {
    if name in labels && Carries(labels[name], key, value) then 1 else 0
  }

  /** A name is listed under key and value exactly once iff that cluster carries that label, and never otherwise. */
  ghost predicate Agrees(index: Index, labels: map<string, Labels>) {
    forall key, value, name :: multiset(Bucket(index, key, value))[name] == Due(labels, name, key, value)
  }

  /** The list without a name. */
  function Without(names: seq<string>, name: string): seq<string> {
    if names == [] then []
    else (if names[0] == name then [] else [names[0]]) + Without(names[1..], name)
  }

  lemma {:induction false} WithoutCounts(names: seq<string>, name: string, other: string)
    ensures multiset(Without(names, name))[other] == if other == name then 0 else multiset(names)[other]
  {
    if names != [] {
      WithoutCounts(names[1..], name, other);
      assert names == [names[0]] + names[1..];
    }
  }

  /** Every bucket of `after` is that of `before` with `name` appended under the given labels. */
  ghost predicate Appends(before: Index, after: Index, name: string, labels: Labels) {
    forall key, value ::
      Bucket(after, key, value) == Bucket(before, key, value) + if Carries(labels, key, value) then [name] else []
  }

  /** Every bucket of `after` is that of `before` without `name` under the given labels. */
  ghost predicate Strikes(before: Index, after: Index, name: string, labels: Labels) {
    forall key, value ::
      Bucket(after, key, value) == if Carries(labels, key, value) then Without(Bucket(before, key, value), name) else Bucket(before, key, value)
  }

  // ---------------------------------------------------------- what calls keep

  /**
    Adding keeps the agreement exactly when the name was not indexed or had no labels:
    adding a labelled name a second time leaves stale or double entries behind.
  */
  lemma AddKeepsAgreementIff(before: Index, after: Index, known: map<string, Labels>, name: string, labels: Labels)
    requires Agrees(before, known) && Appends(before, after, name, labels)
    ensures Agrees(after, known[name := labels]) <==> name !in known || known[name] == map[]
  {
    var now := known[name := labels];
    if name !in known || known[name] == map[] {
      forall key, value, other ensures multiset(Bucket(after, key, value))[other] == Due(now, other, key, value) {
        assert multiset(Bucket(before, key, value))[other] == Due(known, other, key, value);
        AppendedCount(Bucket(before, key, value), Bucket(after, key, value), name, Carries(labels, key, value), other);
      }
    } else {
      var key :| key in known[name];
      var value := known[name][key];
      assert multiset(Bucket(before, key, value))[name] == Due(known, name, key, value) == 1;
      AppendedCount(Bucket(before, key, value), Bucket(after, key, value), name, Carries(labels, key, value), name);
      assert multiset(Bucket(after, key, value))[name] != Due(now, name, key, value);
    }
  }

  lemma AppendedCount(before: seq<string>, after: seq<string>, name: string, added: bool, other: string)
    requires after == before + if added then [name] else []
    ensures multiset(after)[other] == multiset(before)[other] + if added && other == name then 1 else 0
  {
  }

  /** Removing keeps the agreement, always. */
  lemma RemoveKeepsAgreement(before: Index, after: Index, known: map<string, Labels>, name: string)
    requires Agrees(before, known) && name in known && Strikes(before, after, name, known[name])
    ensures Agrees(after, known - {name})
  {
    forall key, value, other ensures multiset(Bucket(after, key, value))[other] == Due(known - {name}, other, key, value) {
      assert multiset(Bucket(before, key, value))[other] == Due(known, other, key, value);
      StruckCount(Bucket(before, key, value), Bucket(after, key, value), known, name, other, key, value);
    }
  }

  lemma StruckCount(before: seq<string>, after: seq<string>, known: map<string, Labels>, name: string, other: string, key: string, value: string)
    requires name in known && after == if Carries(known[name], key, value) then Without(before, name) else before
    requires multiset(before)[other] == Due(known, other, key, value)
    ensures multiset(after)[other] == Due(known - {name}, other, key, value)
  {
    WithoutCounts(before, name, other);
  }

  /** Removing what was just added gives the old agreement back. */
  lemma RemoveUndoesAdd(before: Index, added: Index, removed: Index, known: map<string, Labels>, name: string, labels: Labels)
    requires Agrees(before, known) && name !in known
    requires Appends(before, added, name, labels) && Strikes(added, removed, name, labels)
    ensures forall key, value :: multiset(Bucket(removed, key, value)) == multiset(Bucket(before, key, value))
  {
    forall key, value ensures multiset(Bucket(removed, key, value)) == multiset(Bucket(before, key, value)) {
      forall other ensures multiset(Bucket(removed, key, value))[other] == multiset(Bucket(before, key, value))[other] {
        assert multiset(Bucket(before, key, value))[other] == Due(known, other, key, value);
        AppendedCount(Bucket(before, key, value), Bucket(added, key, value), name, Carries(labels, key, value), other);
        WithoutCounts(Bucket(added, key, value), name, other);
      }
    }
  }

  /** Two tidy indexes with the same buckets are the same index. */
  lemma TidyIsUnique(a: Index, b: Index)
    requires Tidy(a) && Tidy(b)
    requires forall key, value :: Bucket(a, key, value) == Bucket(b, key, value)
    ensures a == b
  {
    forall key ensures key in a <==> key in b {
      TidyKey(a, b, key);
      TidyKey(b, a, key);
    }
    forall key | key in a ensures a[key] == b[key] {
      TidyValuesEqual(a, b, key);
    }
  }

  lemma TidyKey(a: Index, b: Index, key: string)
    requires Tidy(a) && forall key, value :: Bucket(a, key, value) == Bucket(b, key, value)
    ensures key in a ==> key in b
  {
    if key in a {
      var value :| value in a[key];
      assert Bucket(a, key, value) != [];
    }
  }

  lemma TidyValuesEqual(a: Index, b: Index, key: string)
    requires Tidy(a) && Tidy(b) && key in a && key in b
    requires forall key, value :: Bucket(a, key, value) == Bucket(b, key, value)
    ensures a[key] == b[key]
  {
    forall value ensures value in a[key] <==> value in b[key] {
      assert Bucket(a, key, value) == Bucket(b, key, value);
    }
    forall value | value in a[key] ensures a[key][value] == b[key][value] {
      assert Bucket(a, key, value) == Bucket(b, key, value);
    }
  }

  // -------------------------------------------------------------- the indexer

  class SimpleIndexer {
    var index: Index
    var clusterLabels: map<string, Labels>

    constructor ()
      ensures Valid() && clusterLabels == map[]
    {
      index, clusterLabels := map[], map[];
    }

    ghost predicate Valid()
      reads this
    {
      Tidy(index) && Agrees(index, clusterLabels)
    }

    /** Adds a cluster; `Valid` survives iff the name carried no label before. */
    method Add(name: string, labels: Labels)
      modifies this
      ensures clusterLabels == old(clusterLabels)[name := labels]
      ensures Appends(old(index), index, name, labels)
      ensures old(Tidy(index)) ==> Tidy(index)
      ensures old(Valid()) ==> (Valid() <==> name !in old(clusterLabels) || old(clusterLabels[name]) == map[])
    {
      clusterLabels := clusterLabels[name := labels];
      var left := labels.Keys;
      ghost var done: Labels := map[];
      while left != {}
        invariant left <= labels.Keys
        invariant clusterLabels == old(clusterLabels)[name := labels]
        invariant done == labels - left
        invariant Appends(old(index), index, name, done)
        invariant old(Tidy(index)) ==> Tidy(index)
        decreases left
      {
        var k :| k in left;
        ghost var before := index;
        left := left - {k};
        index := WithEntry(index, k, labels[k], name);
        EntryAppends(old(index), before, index, name, done, k, labels[k]);
        done := done[k := labels[k]];
      }
      assert done == labels;
      if old(Valid()) {
        AddKeepsAgreementIff(old(index), index, old(clusterLabels), name, labels);
      }
    }

    /** Removes a cluster under its recorded labels; an unknown name changes nothing. */
    method Remove(name: string)
      modifies this
      ensures clusterLabels == old(clusterLabels) - {name}
      ensures name !in old(clusterLabels) ==> index == old(index)
      ensures name in old(clusterLabels) ==> Strikes(old(index), index, name, old(clusterLabels[name]))
      ensures old(Valid()) ==> Valid()
    {
      if name !in clusterLabels {
        return;
      }
      var labels := clusterLabels[name];
      clusterLabels := clusterLabels - {name};
      var left := labels.Keys;
      ghost var done: Labels := map[];
      while left != {}
        invariant left <= labels.Keys
        invariant clusterLabels == old(clusterLabels) - {name}
        invariant done == labels - left
        invariant Strikes(old(index), index, name, done)
        invariant old(Tidy(index)) ==> Tidy(index)
        decreases left
      {
        var k :| k in left;
        ghost var before := index;
        left := left - {k};
        index := WithoutEntry(index, k, labels[k], name);
        EntryStrikes(old(index), before, index, name, done, k, labels[k]);
        done := done[k := labels[k]];
      }
      assert done == labels;
      if old(Valid()) {
        RemoveKeepsAgreement(old(index), index, old(clusterLabels), name);
      }
    }

    /** A removal followed by an addition, as a cluster update does it: agreement survives whatever the labels were. */
    method Relabel(name: string, labels: Labels)
      requires Valid()
      modifies this
      ensures Valid() && clusterLabels == old(clusterLabels)[name := labels]
    {
      Remove(name);
      Add(name, labels);
    }

    method GetClustersByLabel(key: string, value: string) returns (names: seq<string>)
      ensures names == Bucket(index, key, value)
      ensures Valid() ==> forall n :: multiset(names)[n] == Due(clusterLabels, n, key, value)
    {
      names := [];
      if key in index && value in index[key] {
        names := index[key][value];
      }
    }

    /** Every cluster with the key once, as a scan over all labels would find them. */
    method GetClustersByLabelKey(key: string) returns (names: set<string>)
      requires Valid()
      ensures forall n :: n in names <==> n in clusterLabels && key in clusterLabels[n]
    {
      names := {};
      if key in index {
        var left := index[key].Keys;
        while left != {}
          invariant left <= index[key].Keys
          invariant forall n :: n in names <==> exists v :: v in index[key] && v !in left && n in index[key][v]
          decreases left
        {
          var value :| value in left;
          left := left - {value};
          names := names + Elements(index[key][value]);
        }
      }
      forall n ensures n in names <==> n in clusterLabels && key in clusterLabels[n] {
        KeyIsListed(index, clusterLabels, key, n);
      }
    }

    method Clone() returns (clone: SimpleIndexer)
      ensures fresh(clone) && clone.index == index && clone.clusterLabels == clusterLabels
      ensures Valid() ==> clone.Valid()
    {
      clone := new SimpleIndexer();
      clone.index := index;
      clone.clusterLabels := clusterLabels;
    }
  }

  function Elements(names: seq<string>): set<string> {
    set n | n in names
  }

  lemma KeyIsListed(index: Index, labels: map<string, Labels>, key: string, name: string)
    requires Agrees(index, labels)
    ensures (key in index && exists v :: v in index[key] && name in index[key][v]) <==> name in labels && key in labels[name]
  {
    if key in index {
      forall v | v in index[key] && name in index[key][v] ensures name in labels && key in labels[name] {
        assert multiset(Bucket(index, key, v))[name] == Due(labels, name, key, v);
      }
    }
    if name in labels && key in labels[name] {
      var v := labels[name][key];
      assert multiset(Bucket(index, key, v))[name] == Due(labels, name, key, v) == 1;
      assert name in Bucket(index, key, v);
    }
  }

  /** One loop step of `Add`. */
  function WithEntry(index: Index, key: string, value: string, name: string): Index {
    var values := if key in index then index[key] else map[];
    index[key := values[value := (if value in values then values[value] else []) + [name]]]
  }

  lemma EntryAppends(start: Index, before: Index, after: Index, name: string, done: Labels, key: string, value: string)
    requires Appends(start, before, name, done) && key !in done && after == WithEntry(before, key, value, name)
    ensures Appends(start, after, name, done[key := value])
    ensures Tidy(before) ==> Tidy(after)
  {
    forall k, v ensures Bucket(after, k, v) == Bucket(start, k, v) + if Carries(done[key := value], k, v) then [name] else [] {
      assert Bucket(before, k, v) == Bucket(start, k, v) + if Carries(done, k, v) then [name] else [];
    }
  }

  /** One loop step of `Remove`: filter the bucket, drop it when empty, drop the key when it has no bucket left. */
  function WithoutEntry(index: Index, key: string, value: string, name: string): Index {
    if key !in index then index
    else
      var values :=
        if value !in index[key] then index[key]
        else if Without(index[key][value], name) == [] then index[key] - {value}
        else index[key][value := Without(index[key][value], name)];
      if values == map[] then index - {key} else index[key := values]
  }

  lemma EntryStrikes(start: Index, before: Index, after: Index, name: string, done: Labels, key: string, value: string)
    requires Strikes(start, before, name, done) && key !in done && after == WithoutEntry(before, key, value, name)
    ensures Strikes(start, after, name, done[key := value])
    ensures Tidy(before) ==> Tidy(after)
  {
    forall k, v
      ensures Bucket(after, k, v) == if Carries(done[key := value], k, v) then Without(Bucket(start, k, v), name) else Bucket(start, k, v)
    {
      assert Bucket(before, k, v) == if Carries(done, k, v) then Without(Bucket(start, k, v), name) else Bucket(start, k, v);
      WithoutEntryBucket(before, key, value, name, k, v);
    }
  }

  lemma WithoutEntryBucket(index: Index, key: string, value: string, name: string, k: string, v: string)
    ensures Bucket(WithoutEntry(index, key, value, name), k, v)
         == if k == key && v == value then Without(Bucket(index, k, v), name) else Bucket(index, k, v)
  {
    if key in index {
      assert v in index[key] && v != value ==> v in index[key] - {value};
      assert value in index[key] ==> value in index[key][value := Without(index[key][value], name)];
    }
  }
}
