/**
  Cluster names in the byte order the scheduler sorts them by, and strictly
  increasing lists of names: a set of names has exactly one such list.
*/
module Names {
  predicate Less(a: string, b: string) {
    if b == "" then false
    else if a == "" then true
    else a[0] < b[0] || (a[0] == b[0] && Less(a[1..], b[1..]))
  }

  lemma {:induction false} LessIsTotal(a: string, b: string)
    ensures Less(a, b) || a == b || Less(b, a)
    ensures !(Less(a, b) && Less(b, a))
    ensures Less(a, b) ==> a != b
  {
    if a != "" && b != "" && a[0] == b[0] {
      LessIsTotal(a[1..], b[1..]);
      assert a == [a[0]] + a[1..] && b == [b[0]] + b[1..];
    }
  }

  /** The byte order: the names agree up to some place, where the first one ends or has the smaller character. */
  lemma {:induction false} LessIsBytewise(a: string, b: string)
    ensures Less(a, b) <==> exists k :: 0 <= k <= |a| && k < |b| && a[..k] == b[..k] && (k < |a| ==> a[k] < b[k])
  {
    if a == "" || b == "" {
      assert a[..0] == b[..0];
    } else if a[0] != b[0] {
      assert a[..0] == b[..0];
      assert forall k :: 0 < k <= |a| && k < |b| ==> a[..k][0] == a[0] && b[..k][0] == b[0];
    } else {
      LessIsBytewise(a[1..], b[1..]);
      BytewiseTail(a, b);
    }
  }

  lemma BytewiseTail(a: string, b: string)
    requires a != "" && b != "" && a[0] == b[0]
    ensures (exists k :: 0 <= k <= |a| && k < |b| && a[..k] == b[..k] && (k < |a| ==> a[k] < b[k]))
       <==> (exists k :: 0 <= k <= |a[1..]| && k < |b[1..]| && a[1..][..k] == b[1..][..k] && (k < |a[1..]| ==> a[1..][k] < b[1..][k]))
  {
    if k :| 0 <= k <= |a| && k < |b| && a[..k] == b[..k] && (k < |a| ==> a[k] < b[k]) {
      assert k > 0;
      assert a[1..][..k - 1] == a[..k][1..] && b[1..][..k - 1] == b[..k][1..];
    }
    if k :| 0 <= k <= |a[1..]| && k < |b[1..]| && a[1..][..k] == b[1..][..k] && (k < |a[1..]| ==> a[1..][k] < b[1..][k]) {
      assert a[..k + 1] == [a[0]] + a[1..][..k] && b[..k + 1] == [b[0]] + b[1..][..k];
    }
  }

  lemma {:induction false} LessIsTransitive(a: string, b: string, c: string)
    requires Less(a, b) && Less(b, c)
    ensures Less(a, c)
  {
    if a != "" && a[0] == b[0] == c[0] {
      LessIsTransitive(a[1..], b[1..], c[1..]);
    }
  }

  predicate Increasing(names: seq<string>) {
    forall i, j :: 0 <= i < j < |names| ==> Less(names[i], names[j])
  }

  /** The order decides positions: a smaller name stands earlier. */
  lemma PositionFollowsName(names: seq<string>, i: nat, j: nat)
    requires Increasing(names) && i < |names| && j < |names|
    ensures Less(names[i], names[j]) <==> i < j
    ensures names[i] == names[j] <==> i == j
  {
    LessIsTotal(names[i], names[j]);
  }

  lemma {:induction false} IncreasingIsUnique(a: seq<string>, b: seq<string>)
    requires Increasing(a) && Increasing(b)
    requires forall n :: n in a <==> n in b
    ensures a == b
  {
    assert a != [] ==> a[0] in b;
    assert b != [] ==> b[0] in b;
    if a != [] {
      var j :| 0 <= j < |b| && b[j] == a[0];
      assert b[0] in a;
      var i :| 0 <= i < |a| && a[i] == b[0];
      LessIsTotal(a[0], b[0]);
      assert a[0] == b[0];
      TailKeeps(a, b);
      TailKeeps(b, a);
      IncreasingIsUnique(a[1..], b[1..]);
      assert a == [a[0]] + a[1..] && b == [b[0]] + b[1..];
    }
  }

  lemma TailKeeps(a: seq<string>, b: seq<string>)
    requires Increasing(a) && Increasing(b) && a != [] && b != [] && a[0] == b[0]
    requires forall n :: n in a ==> n in b
    ensures forall n :: n in a[1..] ==> n in b[1..]
  {
    forall n | n in a[1..] ensures n in b[1..] {
      var i :| 1 <= i < |a| && a[i] == n;
      LessIsTotal(a[0], n);
      assert a[i] in b;
      var j :| 0 <= j < |b| && b[j] == n;
      assert j != 0;
      assert b[1..][j - 1] == n;
    }
  }

  /** Where `name` belongs in a sorted list that does not hold it. */
  method Place(names: seq<string>, name: string) returns (k: nat)
    requires Increasing(names) && name !in names
    ensures k <= |names|
    ensures forall i :: 0 <= i < k ==> Less(names[i], name)
    ensures forall i :: k <= i < |names| ==> Less(name, names[i])
  {
    k := 0;
    while k < |names| && Less(names[k], name)
      invariant k <= |names|
      invariant forall i :: 0 <= i < k ==> Less(names[i], name)
    {
      k := k + 1;
    }
    forall i | k <= i < |names| ensures Less(name, names[i]) {
      LessIsTotal(names[k], name);
      if i > k {
        LessIsTransitive(name, names[k], names[i]);
      }
    }
  }

  /** The keys of a map, collected in any order and sorted. */
  method Sorted(names: set<string>) returns (list: seq<string>)
    ensures Increasing(list)
    ensures forall n :: n in list <==> n in names
  {
    list := [];
    var left := names;
    while left != {}
      invariant left <= names
      invariant Increasing(list)
      invariant forall n :: n in list <==> n in names - left
      decreases left
    {
      var name :| name in left;
      left := left - {name};
      var k := Place(list, name);
      ghost var before := list;
      list := list[..k] + [name] + list[k..];
      assert forall n :: n in list <==> n in before || n == name;
    }
  }
}
