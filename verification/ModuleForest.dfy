/**
  The module table as a forest: rows point to their parents, carry their level and the
  path of names from their root.
*/
module ModuleForest {
  import opened Prelude

  type Id = nat

  const MAX_LEVEL: nat := 5

  datatype Module = Module(name: string, parent: Option<Id>, level: nat, sort: int, path: string)

  type Table = map<Id, Module>

  /** Every parent is listed and one level up; levels end at the limit. */
  ghost predicate Shaped(t: Table) {
    forall id :: id in t ==> LevelFits(t, id)
  }

  predicate LevelFits(t: Table, id: Id)
    requires id in t
  {
    && 1 <= t[id].level <= MAX_LEVEL
    && (t[id].parent.Some? ==> t[id].parent.value in t && t[id].level == t[t[id].parent.value].level + 1)
  }

  ghost predicate RootsAtOne(t: Table) {
    forall id :: id in t && t[id].parent.None? ==> t[id].level == 1
  }

  /** The path of a row continues its parent's. */
  predicate PathFits(t: Table, id: Id)
    requires id in t
  {
    match t[id].parent
    case None => t[id].path == "/" + t[id].name
    case Some(p) => p in t && t[id].path == t[p].path + "/" + t[id].name
  }

  ghost predicate Valid(t: Table) {
    Shaped(t) && RootsAtOne(t) && forall id :: id in t ==> PathFits(t, id)
  }

  // --------------------------------------------------------------- ancestors

  /** The `k`-th ancestor of a row, the row itself for `k` zero. */
  function Ancestor(t: Table, id: Id, k: nat): Option<Id>
    decreases k
  {
    if k == 0 then Some(id)
    else if id in t && t[id].parent.Some? then Ancestor(t, t[id].parent.value, k - 1)
    else None
  }

  /** The row is the root or has it among its ancestors. */
  ghost predicate Under(t: Table, root: Id, id: Id) {
    id in t && exists k: nat :: Ancestor(t, id, k) == Some(root)
  }

  ghost predicate StrictlyUnder(t: Table, root: Id, id: Id) {
    id in t && t[id].parent.Some? && Under(t, root, t[id].parent.value)
  }

  lemma {:induction false} AncestorLevel(t: Table, id: Id, k: nat)
    requires Shaped(t) && id in t && Ancestor(t, id, k).Some?
    ensures Ancestor(t, id, k).value in t && t[id].level == t[Ancestor(t, id, k).value].level + k
    decreases k
  {
    if k > 0 {
      assert LevelFits(t, id);
      AncestorLevel(t, t[id].parent.value, k - 1);
    }
  }

  /** Levels rise by one a step, so a row meets a root at one distance only: no cycles. */
  lemma OneDistance(t: Table, root: Id, id: Id, j: nat, k: nat)
    requires Shaped(t) && id in t && Ancestor(t, id, j) == Some(root) == Ancestor(t, id, k)
    ensures j == k
  {
    AncestorLevel(t, id, j);
    AncestorLevel(t, id, k);
  }

  lemma UnderSplits(t: Table, root: Id, id: Id)
    requires Shaped(t) && root in t
    ensures Under(t, root, id) <==> id == root || StrictlyUnder(t, root, id)
    ensures StrictlyUnder(t, root, id) ==> id != root
  {
    assert Ancestor(t, root, 0) == Some(root);
    if Under(t, root, id) && id != root {
      var k: nat :| Ancestor(t, id, k) == Some(root);
      assert LevelFits(t, id);
      assert Ancestor(t, t[id].parent.value, k - 1) == Some(root);
    }
    if StrictlyUnder(t, root, id) {
      var p := t[id].parent.value;
      var k: nat :| Ancestor(t, p, k) == Some(root);
      assert Ancestor(t, id, k + 1) == Some(root);
      AncestorLevel(t, id, k + 1);
    }
  }

  lemma {:induction false} AncestorCompose(t: Table, id: Id, j: nat, k: nat)
    requires Ancestor(t, id, j).Some?
    ensures Ancestor(t, id, j + k) == Ancestor(t, Ancestor(t, id, j).value, k)
    decreases j
  {
    if j > 0 {
      AncestorCompose(t, t[id].parent.value, j - 1, k);
    }
  }

  lemma UnderIsTransitive(t: Table, a: Id, b: Id, c: Id)
    requires Under(t, a, b) && Under(t, b, c)
    ensures Under(t, a, c)
  {
    var j: nat :| Ancestor(t, c, j) == Some(b);
    var k: nat :| Ancestor(t, b, k) == Some(a);
    AncestorCompose(t, c, j, k);
  }

  /** Two modules that share a descendant are related: subtrees are nested or disjoint. */
  lemma UnderIsLinear(t: Table, a: Id, b: Id, id: Id)
    requires Under(t, a, id) && Under(t, b, id) && a in t && b in t
    ensures Under(t, a, b) || Under(t, b, a)
  {
    var j: nat :| Ancestor(t, id, j) == Some(a);
    var k: nat :| Ancestor(t, id, k) == Some(b);
    if j <= k {
      AncestorCompose(t, id, j, k - j);
    } else {
      AncestorCompose(t, id, k, j - k);
    }
  }

  ghost predicate IsChild(t: Table, parent: Id, id: Id) {
    id in t && t[id].parent == Some(parent)
  }

  /** What is strictly under a module is under exactly one of its children. */
  lemma StrictlyUnderAChild(t: Table, root: Id, id: Id)
    requires Shaped(t) && root in t
    ensures StrictlyUnder(t, root, id) <==> exists c :: IsChild(t, root, c) && Under(t, c, id)
    ensures forall c, d :: IsChild(t, root, c) && IsChild(t, root, d) && Under(t, c, id) && Under(t, d, id) ==> c == d
  {
    UnderSplits(t, root, id);
    if StrictlyUnder(t, root, id) {
      var k: nat :| Ancestor(t, id, k) == Some(root);
      assert k > 0;
      AncestorPenultimate(t, id, k);
      var c := Ancestor(t, id, k - 1).value;
      assert IsChild(t, root, c) && Under(t, c, id);
    }
    forall c: Id | IsChild(t, root, c) && Under(t, c, id) ensures StrictlyUnder(t, root, id) {
      assert Ancestor(t, c, 1) == Some(root);
      UnderIsTransitive(t, root, c, id);
      assert LevelFits(t, c);
      var k: nat :| Ancestor(t, id, k) == Some(c);
      AncestorLevel(t, id, k);
    }
    forall c: Id, d: Id | IsChild(t, root, c) && IsChild(t, root, d) && Under(t, c, id) && Under(t, d, id) ensures c == d {
      var j: nat :| Ancestor(t, id, j) == Some(c);
      var k: nat :| Ancestor(t, id, k) == Some(d);
      assert LevelFits(t, c) && LevelFits(t, d);
      AncestorLevel(t, id, j);
      AncestorLevel(t, id, k);
    }
  }

  lemma {:induction false} AncestorPenultimate(t: Table, id: Id, k: nat)
    requires Shaped(t) && id in t && k > 0 && Ancestor(t, id, k).Some?
    ensures Ancestor(t, id, k - 1).Some? && IsChild(t, Ancestor(t, id, k).value, Ancestor(t, id, k - 1).value)
    decreases k
  {
    assert LevelFits(t, id);
    if k > 1 {
      AncestorPenultimate(t, t[id].parent.value, k - 1);
    }
  }

  // ------------------------------------------------------------- level and path

  /** How many modules stand on the way from the root down to this one. */
  ghost function Depth(t: Table, id: Id): nat
    requires Shaped(t) && id in t
    decreases t[id].level
  {
    assert LevelFits(t, id);
    if t[id].parent.None? then 1 else 1 + Depth(t, t[id].parent.value)
  }

  /** The names from the root down to this module, each after a slash. */
  ghost function NamesFromRoot(t: Table, id: Id): string
    requires Shaped(t) && id in t
    decreases t[id].level
  {
    assert LevelFits(t, id);
    (if t[id].parent.None? then "" else NamesFromRoot(t, t[id].parent.value)) + "/" + t[id].name
  }

  /** Level is depth, at most the limit, and the path spells the names from the root. */
  lemma {:induction false} LevelIsDepth(t: Table, id: Id)
    requires Valid(t) && id in t
    ensures t[id].level == Depth(t, id) && Depth(t, id) <= 5
    ensures t[id].path == NamesFromRoot(t, id)
    decreases t[id].level
  {
    assert LevelFits(t, id) && PathFits(t, id);
    if t[id].parent.Some? {
      LevelIsDepth(t, t[id].parent.value);
    }
  }

  // -------------------------------------------------------------------- pruning

  /** Rows taken out of a table such that every row left keeps its parent. */
  ghost predicate Pruned(t: Table, u: Table) {
    && (forall id :: id in u ==> id in t && u[id] == t[id])
    && (forall id :: id in u && u[id].parent.Some? ==> u[id].parent.value in u)
  }

  lemma {:induction false} PrunedAncestor(t: Table, u: Table, id: Id, k: nat)
    requires Pruned(t, u) && id in u
    ensures Ancestor(u, id, k) == Ancestor(t, id, k)
    decreases k
  {
    if k > 0 && u[id].parent.Some? {
      PrunedAncestor(t, u, u[id].parent.value, k - 1);
    }
  }

  lemma PrunedUnder(t: Table, u: Table, root: Id, id: Id)
    requires Pruned(t, u) && id in u
    ensures Under(u, root, id) <==> Under(t, root, id)
  {
    forall k: nat ensures Ancestor(u, id, k) == Ancestor(t, id, k) {
      PrunedAncestor(t, u, id, k);
    }
    if Under(t, root, id) {
      var k: nat :| Ancestor(t, id, k) == Some(root);
      assert Ancestor(u, id, k) == Some(root);
    }
    if Under(u, root, id) {
      var k: nat :| Ancestor(u, id, k) == Some(root);
      assert Ancestor(t, id, k) == Some(root);
    }
  }

  lemma PrunedIsValid(t: Table, u: Table)
    requires Pruned(t, u)
    ensures Shaped(t) ==> Shaped(u)
    ensures Valid(t) ==> Valid(u)
  {
    if Shaped(t) {
      forall id | id in u ensures LevelFits(u, id) {
        assert LevelFits(t, id);
      }
    }
    if Valid(t) {
      forall id | id in u ensures PathFits(u, id) {
        assert PathFits(t, id);
      }
    }
  }

  lemma UnderParent(t: Table, root: Id, id: Id)
    ensures StrictlyUnder(t, root, id) ==> Under(t, root, id)
  {
    if StrictlyUnder(t, root, id) {
      var k: nat :| Ancestor(t, t[id].parent.value, k) == Some(root);
      assert Ancestor(t, id, k + 1) == Some(root);
    }
  }

  /** Taking out a whole subtree prunes the table. */
  lemma SubtreeRemovalPrunes(t: Table, u: Table, root: Id)
    requires Shaped(t) && forall id :: id in u <==> id in t && !Under(t, root, id)
    requires forall id :: id in u ==> u[id] == t[id]
    ensures Pruned(t, u)
  {
    forall id | id in u && u[id].parent.Some? ensures u[id].parent.value in u {
      assert LevelFits(t, id);
      UnderParent(t, root, id);
    }
  }

  // ----------------------------------------------------------------- relabelling

  /** The same rows up to names, sort keys and paths. */
  ghost predicate SameShape(t: Table, u: Table) {
    t.Keys == u.Keys && forall id :: id in t ==> u[id].parent == t[id].parent && u[id].level == t[id].level
  }

  lemma {:induction false} SameShapeAncestor(t: Table, u: Table, id: Id, k: nat)
    requires SameShape(t, u)
    ensures Ancestor(u, id, k) == Ancestor(t, id, k)
    decreases k
  {
    if k > 0 && id in t && t[id].parent.Some? {
      SameShapeAncestor(t, u, t[id].parent.value, k - 1);
    }
  }

  lemma SameShapeUnder(t: Table, u: Table, root: Id, id: Id)
    requires SameShape(t, u)
    ensures Under(u, root, id) <==> Under(t, root, id)
  {
    forall k: nat ensures Ancestor(u, id, k) == Ancestor(t, id, k) {
      SameShapeAncestor(t, u, id, k);
    }
    if Under(t, root, id) {
      var k: nat :| Ancestor(t, id, k) == Some(root);
      assert Ancestor(u, id, k) == Some(root);
    }
    if Under(u, root, id) {
      var k: nat :| Ancestor(u, id, k) == Some(root);
      assert Ancestor(t, id, k) == Some(root);
    }
  }

  lemma SameShapeIsShaped(t: Table, u: Table)
    requires SameShape(t, u) && Shaped(t)
    ensures Shaped(u)
  {
    forall id | id in u ensures LevelFits(u, id) {
      assert LevelFits(t, id);
    }
  }

  /** Below a module the paths of two tables continue it by the same names. */
  lemma {:induction false} SameSuffix(t: Table, u: Table, root: Id, id: Id, k: nat) returns (suffix: string)
    requires SameShape(t, u) && Shaped(t) && id in t && root in t && Ancestor(t, id, k) == Some(root)
    requires forall c :: StrictlyUnder(t, root, c) ==> PathFits(t, c) && PathFits(u, c) && t[c].name == u[c].name
    ensures t[id].path == t[root].path + suffix && u[id].path == u[root].path + suffix
    decreases k
  {
    if k == 0 {
      suffix := "";
    } else {
      assert LevelFits(t, id);
      var p := t[id].parent.value;
      var above := SameSuffix(t, u, root, p, k - 1);
      assert Under(t, root, p) && StrictlyUnder(t, root, id);
      suffix := above + "/" + t[id].name;
      Associate(t[root].path, above, "/", t[id].name);
      Associate(u[root].path, above, "/", t[id].name);
    }
  }

  lemma Associate(a: string, b: string, c: string, d: string)
    ensures a + b + c + d == a + (b + c + d)
  {
  }
}
