/** The module service over its table: each call is one transaction. */
module ModuleTree {
  import opened Prelude
  import opened ModuleForest

  datatype ServiceError = ModuleNotFound | ParentNotFound | ParentAtMaxLevel | StillReferenced

  ghost predicate Distinct(ids: seq<Id>) {
    forall i, j :: 0 <= i < j < |ids| ==> ids[i] != ids[j]
  }

  /** The row stands exactly `d` steps below the root. */
  ghost predicate AtDistance(t: Table, root: Id, id: Id, d: nat) {
    id in t && Ancestor(t, id, d) == Some(root)
  }

  ghost predicate Within(t: Table, root: Id, id: Id, d: nat) {
    exists j: nat :: j <= d && AtDistance(t, root, id, j)
  }

  lemma ChildIsOneFurther(t: Table, root: Id, id: Id, d: nat)
    requires Shaped(t)
    ensures AtDistance(t, root, id, d + 1) <==> id in t && t[id].parent.Some? && AtDistance(t, root, t[id].parent.value, d)
  {
    if id in t {
      assert LevelFits(t, id);
    }
  }

  /** A level below the root that is empty has nothing below it either. */
  lemma EmptyLevelEnds(t: Table, root: Id, d: nat, id: Id)
    requires Shaped(t) && forall other: Id :: !AtDistance(t, root, other, d)
    ensures Under(t, root, id) ==> Within(t, root, id, d)
  {
    if Under(t, root, id) {
      var k: nat :| Ancestor(t, id, k) == Some(root);
      if k > d {
        AncestorReaches(t, id, k - d, d);
        AncestorLevel(t, id, k - d);
        assert AtDistance(t, root, Ancestor(t, id, k - d).value, d);
      } else {
        assert AtDistance(t, root, id, k);
      }
    }
  }

  lemma {:induction false} AncestorReaches(t: Table, id: Id, j: nat, k: nat)
    requires Ancestor(t, id, j + k).Some?
    ensures Ancestor(t, id, j).Some? && Ancestor(t, Ancestor(t, id, j).value, k) == Ancestor(t, id, j + k)
    decreases j
  {
    if j > 0 {
      AncestorReaches(t, t[id].parent.value, j - 1, k);
    }
  }

  class ModuleService {
    var modules: Table

    constructor ()
      ensures modules == map[] && Valid(modules)
    {
      modules := map[];
    }

    /** The rows whose parent is listed, each once, in any order. */
    method ChildrenOf(frontier: seq<Id>) returns (children: seq<Id>)
      ensures Distinct(children)
      ensures forall id: Id :: id in children <==> id in modules && modules[id].parent.Some? && modules[id].parent.value in frontier
    {
      children := [];
      var left := modules.Keys;
      while left != {}
        invariant left <= modules.Keys && Distinct(children)
        invariant forall id: Id :: id in children <==>
          id in modules && id !in left && modules[id].parent.Some? && modules[id].parent.value in frontier
        decreases left
      {
        var id :| id in left;
        left := left - {id};
        if modules[id].parent.Some? && modules[id].parent.value in frontier {
          children := children + [id];
        }
      }
    }

    /** Breadth-first: the root and everything under it, each once. No set of visited rows is kept; levels end the search. */
    method DescendantIds(root: Id) returns (ids: seq<Id>)
      requires Shaped(modules) && root in modules
      ensures Distinct(ids)
      ensures forall id: Id :: id in ids <==> Under(modules, root, id)
    {
      ids := [root];
      var frontier := [root];
      ghost var d := 0;
      while frontier != []
        invariant Distinct(ids)
        invariant forall id: Id :: id in frontier <==> AtDistance(modules, root, id, d)
        invariant forall id: Id :: id in ids <==> Within(modules, root, id, d)
        invariant frontier != [] ==> d < MAX_LEVEL
        decreases if frontier == [] then 0 else MAX_LEVEL + 1 - d
      {
        var children := ChildrenOf(frontier);
        NextLevel(modules, root, frontier, children, ids, d);
        ids := ids + children;
        frontier := children;
        d := d + 1;
      }
      forall id: Id ensures id in ids <==> Under(modules, root, id) {
        EmptyLevelEnds(modules, root, d, id);
      }
    }

    method CanAccess(root: Id, target: Id) returns (allowed: Result<bool, ServiceError>)
      requires Shaped(modules)
      ensures !(root in modules && target in modules) ==> allowed == Failure(ModuleNotFound)
      ensures root in modules && target in modules ==> allowed.Success? && (allowed.value <==> Under(modules, root, target))
    {
      if root !in modules || target !in modules {
        return Failure(ModuleNotFound);
      }
      var ids := DescendantIds(root);
      for i := 0 to |ids|
        invariant target !in ids[..i]
      {
        if ids[i] == target {
          return Success(true);
        }
      }
      allowed := Success(false);
    }

    /** A new root or child; a parent must exist and not stand at the level limit. */
    method Create(name: string, parent: Option<Id>, sort: int, id: Id) returns (error: Option<ServiceError>)
      requires Valid(modules) && id !in modules
      modifies this
      ensures Valid(modules)
      ensures parent.Some? && parent.value !in old(modules) ==> error == Some(ParentNotFound)
      ensures parent.Some? && parent.value in old(modules) && old(modules)[parent.value].level >= 5 ==> error == Some(ParentAtMaxLevel)
      ensures error.Some? ==> modules == old(modules)
      ensures parent.None? || (parent.value in old(modules) && old(modules)[parent.value].level < 5) ==>
        error.None? && id in modules && modules == old(modules)[id := modules[id]] && modules[id].name == name && modules[id].parent == parent && modules[id].sort == sort
    {
      if parent.Some? && parent.value !in modules {
        return Some(ParentNotFound);
      }
      if parent.Some? && modules[parent.value].level >= MAX_LEVEL {
        return Some(ParentAtMaxLevel);
      }
      var level, path := 1, "/" + name;
      if parent.Some? {
        level, path := modules[parent.value].level + 1, modules[parent.value].path + "/" + name;
      }
      var row := Module(name, parent, level, sort, path);
      InsertIsValid(modules, id, row);
      modules := modules[id := row];
      error := None;
    }

    /** Recomputes the paths of everything strictly under `parent`, and of nothing else. */
    method RewriteChildPaths(parent: Id, path: string)
      requires Shaped(modules) && parent in modules && modules[parent].path == path
      modifies this
      ensures PathsOnly(old(modules), modules)
      ensures BelowRewritten(old(modules), old(modules), modules, parent)
      decreases MAX_LEVEL - modules[parent].level, 1
    {
      ghost var before := modules;
      assert LevelFits(before, parent);
      var children := ChildrenOf([parent]);
      assert forall id: Id :: id in children <==> IsChild(before, parent, id);
      ghost var done: set<Id> := {};
      for i := 0 to |children|
        invariant done == Elements(children[..i]) && Rewritten(before, modules, done)
      {
        NextChild(before, parent, children, i);
        RewriteChild(parent, children[i], path, before, done);
        done := done + {children[i]};
      }
      assert children[..|children|] == children;
      AllRewritten(before, modules, parent, children);
    }

    /** One round of that loop: `done` are the children already rewritten. */
    method RewriteChild(parent: Id, c: Id, path: string, ghost before: Table, ghost done: set<Id>)
      requires Shaped(before) && parent in before && before[parent].path == path && Rewritten(before, modules, done)
      requires IsChild(before, parent, c) && c !in done && forall d :: d in done ==> IsChild(before, parent, d)
      modifies this
      ensures Rewritten(before, modules, done + {c})
      decreases MAX_LEVEL - before[parent].level, 0
    {
      assert LevelFits(before, c);
      UntouchedSoFar(before, modules, parent, done, c);
      ghost var was := modules;
      var below := path + "/" + modules[c].name;
      modules := modules[c := modules[c].(path := below)];
      ghost var entered := modules;
      EnteredIsShaped(before, was, entered, done, c);
      RewriteChildPaths(c, below);
      ChildDone(before, was, entered, modules, parent, done, c);
    }

    /** Gives a renamed module and everything under it the paths that go with the new name. */
    method MovePaths(id: Id)
      requires Shaped(modules) && id in modules
      modifies this
      ensures PathsOnly(old(modules), modules)
      ensures OneSubtree(old(modules), old(modules), modules, id)
    {
      ghost var before := modules;
      assert LevelFits(before, id);
      var row := modules[id];
      var path := "/" + row.name;
      if row.parent.Some? {
        path := modules[row.parent.value].path + "/" + row.name;
      }
      modules := modules[id := row.(path := path)];
      ghost var entered := modules;
      SameShapeIsShaped(before, entered);
      RewriteChildPaths(id, path);
      SameBelow(before, entered, modules, id);
      RootRewritten(before, entered, modules, id);
    }

    /** Renames and reorders a module; an empty name keeps the old one. */
    method Update(id: Id, name: string, sort: int) returns (error: Option<ServiceError>)
      requires Valid(modules)
      modifies this
      ensures error == if id in old(modules) then None else Some(ModuleNotFound)
      ensures error.Some? ==> modules == old(modules)
      ensures error.None? ==> Updated(old(modules), modules, id, name, sort)
    {
      if id !in modules {
        return Some(ModuleNotFound);
      }
      error := None;
      ghost var before := modules;
      var renamed := name != "" && name != modules[id].name;
      var row := modules[id].(sort := sort);
      if name != "" {
        row := row.(name := name);
      }
      modules := modules[id := row];
      ghost var entered := modules;
      EntryIsShaped(before, entered, id);
      if renamed {
        MovePaths(id);
      }
      UpdateResult(before, entered, modules, id, name, sort);
    }

    /** Deletes everything strictly under a module, children first. */
    method DeleteChildren(parent: Id)
      requires Shaped(modules) && parent in modules
      modifies this
      ensures Emptied(old(modules), modules, parent)
      decreases MAX_LEVEL - modules[parent].level, 1
    {
      ghost var before := modules;
      assert LevelFits(before, parent);
      var children := ChildrenOf([parent]);
      assert forall id: Id :: id in children <==> IsChild(before, parent, id);
      ghost var done: set<Id> := {};
      NothingCut(before);
      for i := 0 to |children|
        invariant done == Elements(children[..i]) && Cut(before, modules, done)
      {
        NextChild(before, parent, children, i);
        DeleteChild(parent, children[i], before, done);
        done := done + {children[i]};
      }
      assert children[..|children|] == children;
      AllCut(before, modules, parent, children);
    }

    /** One round of that loop: `done` are the children already deleted. */
    method DeleteChild(parent: Id, c: Id, ghost before: Table, ghost done: set<Id>)
      requires Shaped(before) && parent in before && Cut(before, modules, done)
      requires IsChild(before, parent, c) && c !in done && forall d :: d in done ==> IsChild(before, parent, d)
      modifies this
      ensures Cut(before, modules, done + {c})
      decreases MAX_LEVEL - before[parent].level, 0
    {
      assert LevelFits(before, c);
      StillThere(before, modules, parent, done, c);
      ghost var was := modules;
      DeleteChildren(c);
      ghost var emptied := modules;
      modules := modules - {c};
      CutStep(before, was, emptied, modules, done, c);
    }

    /** Deletes a subtree that no project or user refers to; `referenced` are the modules they name. */
    method Delete(id: Id, referenced: set<Id>) returns (error: Option<ServiceError>)
      requires Valid(modules)
      modifies this
      ensures Valid(modules)
      ensures id !in old(modules) ==> error == Some(ModuleNotFound)
      ensures id in old(modules) ==>
        (error == if exists r :: r in referenced && Under(old(modules), id, r) then Some(StillReferenced) else None)
      ensures error.Some? ==> modules == old(modules)
      ensures error.None? ==> Pruned(old(modules), modules) && forall other :: other in modules <==> other in old(modules) && !Under(old(modules), id, other)
    {
      if id !in modules {
        return Some(ModuleNotFound);
      }
      var ids := DescendantIds(id);
      var references := Elements(ids) * referenced;
      if references != {} {
        ghost var r :| r in references;
        assert r in referenced && Under(modules, id, r);
        return Some(StillReferenced);
      }
      ghost var before := modules;
      DeleteChildren(id);
      modules := modules - {id};
      DeletedSubtree(before, modules, id);
      error := None;
      assert forall r :: r in referenced && Under(before, id, r) ==> r in references;
    }

    /** The rows as trees: roots and siblings ordered by sort key. */
    method BuildTree(rows: Table) returns (roots: seq<Node>)
      requires Shaped(rows)
      ensures Siblings(rows, None, roots)
    {
      roots := BuildChildren(rows, None);
    }

    /** The trees below a parent, or the roots. */
    method BuildChildren(rows: Table, parent: Option<Id>) returns (nodes: seq<Node>)
      requires Shaped(rows) && (parent.Some? ==> parent.value in rows)
      ensures Siblings(rows, parent, nodes)
      decreases if parent.None? then MAX_LEVEL + 1 else MAX_LEVEL - rows[parent.value].level
    {
      assert parent.Some? ==> LevelFits(rows, parent.value);
      var children := SortedChildren(rows, parent);
      nodes := [];
      for i := 0 to |children|
        invariant |nodes| == i && forall k :: 0 <= k < i ==> nodes[k].id == children[k] && Grown(rows, nodes[k])
      {
        assert children[i] in children;
        assert LevelFits(rows, children[i]);
        var below := BuildChildren(rows, Some(children[i]));
        nodes := nodes + [Node(children[i], below)];
      }
    }

    /** The ids of a parent's children by sort key; equal keys come in any order. */
    method SortedChildren(rows: Table, parent: Option<Id>) returns (children: seq<Id>)
      ensures Distinct(children)
      ensures forall id: Id :: id in children <==> id in rows && rows[id].parent == parent
      ensures BySort(rows, children)
    {
      children := [];
      var left := rows.Keys;
      while left != {}
        invariant left <= rows.Keys && Distinct(children)
        invariant forall id: Id :: id in children <==> id in rows && id !in left && rows[id].parent == parent
        invariant BySort(rows, children)
        decreases left
      {
        var id :| id in left;
        left := left - {id};
        if rows[id].parent == parent {
          children := InsertBySort(rows, children, id);
        }
      }
    }

    method InsertBySort(rows: Table, ids: seq<Id>, id: Id) returns (longer: seq<Id>)
      requires id in rows && id !in ids && Distinct(ids) && BySort(rows, ids)
      ensures Distinct(longer) && BySort(rows, longer)
      ensures forall other: Id :: other in longer <==> other in ids || other == id
    {
      var k := 0;
      while k < |ids| && rows[ids[k]].sort <= rows[id].sort
        invariant k <= |ids|
        invariant forall i :: 0 <= i < k ==> rows[ids[i]].sort <= rows[id].sort
      {
        k := k + 1;
      }
      longer := ids[..k] + [id] + ids[k..];
      InsertKeepsDistinct(ids, k, id);
      InsertKeepsSort(rows, ids, k, id);
    }

    /** All modules as trees. */
    method List() returns (roots: seq<Node>)
      requires Valid(modules)
      ensures Siblings(modules, None, roots)
      ensures Distinct(FlattenAll(roots)) && forall id: Id :: id in FlattenAll(roots) <==> id in modules
    {
      roots := BuildTree(modules);
      RootsAreEverything(modules, roots);
    }

    /** The caller's module as the one root with its whole subtree, each module once. */
    method ListScoped(root: Id) returns (roots: Result<seq<Node>, ServiceError>)
      requires Valid(modules)
      ensures root !in modules ==> roots == Failure(ModuleNotFound)
      ensures root in modules ==> roots.Success? && |roots.value| == 1 && roots.value[0].id == root
      ensures root in modules ==> Distinct(FlattenAll(roots.value)) && forall id: Id :: id in FlattenAll(roots.value) <==> Under(modules, root, id)
      ensures root in modules ==> Grown(Scoped(modules, root), roots.value[0])
    {
      if root !in modules {
        return Failure(ModuleNotFound);
      }
      var ids := DescendantIds(root);
      var rows := map id | id in ids && id in modules :: if id == root then modules[id].(parent := None) else modules[id];
      assert forall id: Id :: id in ids <==> Under(modules, root, id);
      assert rows == Scoped(modules, root);
      ScopedIsShaped(modules, root);
      var trees := BuildTree(rows);
      ScopedHasOneRoot(modules, root, trees);
      roots := Success(trees);
    }
  }

  // ---------------------------------------------------------------------- trees

  datatype Node = Node(id: Id, children: seq<Node>)

  ghost predicate BySort(rows: Table, ids: seq<Id>) {
    && (forall i :: 0 <= i < |ids| ==> ids[i] in rows)
    && (forall i, j :: 0 <= i < j < |ids| ==> rows[ids[i]].sort <= rows[ids[j]].sort)
  }

  lemma InsertKeepsSort(rows: Table, ids: seq<Id>, k: nat, id: Id)
    requires BySort(rows, ids) && k <= |ids| && id in rows
    requires forall i :: 0 <= i < k ==> rows[ids[i]].sort <= rows[id].sort
    requires k < |ids| ==> rows[ids[k]].sort > rows[id].sort
    ensures BySort(rows, ids[..k] + [id] + ids[k..])
  {
    var longer := ids[..k] + [id] + ids[k..];
    assert forall i :: 0 <= i < |longer| ==> longer[i] == if i < k then ids[i] else if i == k then id else ids[i - 1];
  }

  lemma InsertKeepsDistinct(ids: seq<Id>, k: nat, id: Id)
    requires Distinct(ids) && id !in ids && k <= |ids|
    ensures Distinct(ids[..k] + [id] + ids[k..])
    ensures forall other: Id :: other in ids[..k] + [id] + ids[k..] <==> other in ids || other == id
  {
    var longer := ids[..k] + [id] + ids[k..];
    assert forall i :: 0 <= i < |longer| ==> longer[i] == if i < k then ids[i] else if i == k then id else ids[i - 1];
    assert forall i :: 0 <= i < |ids| ==> ids[i] in ids;
    assert ids == ids[..k] + ids[k..];
  }

  function Flatten(node: Node): seq<Id>
    decreases node, 1
  {
    [node.id] + FlattenAll(node.children)
  }

  function FlattenAll(nodes: seq<Node>): seq<Id>
    decreases nodes, 0
  {
    if nodes == [] then [] else Flatten(nodes[0]) + FlattenAll(nodes[1..])
  }

  /** A node with exactly the children its row has, in order of their sort keys, and so on below. */
  ghost predicate Grown(t: Table, node: Node)
    decreases node, 1
  {
    Siblings(t, Some(node.id), node.children)
  }

  /** The rows with this parent, each once, by sort key, with everything below them. */
  ghost predicate Siblings(t: Table, parent: Option<Id>, nodes: seq<Node>)
    decreases nodes, 0
  {
    && Distinct(Ids(nodes))
    && (forall id: Id :: id in Ids(nodes) <==> id in t && t[id].parent == parent)
    && (forall i, j :: 0 <= i < j < |nodes| && nodes[i].id in t && nodes[j].id in t ==> t[nodes[i].id].sort <= t[nodes[j].id].sort)
    && (forall i :: 0 <= i < |nodes| ==> Grown(t, nodes[i]))
  }

  function Ids(nodes: seq<Node>): (ids: seq<Id>)
    ensures |ids| == |nodes| && forall i :: 0 <= i < |nodes| ==> ids[i] == nodes[i].id
  {
    seq(|nodes|, i requires 0 <= i < |nodes| => nodes[i].id)
  }

  function Elements(ids: seq<Id>): set<Id> {
    set id | id in ids
  }

  // ------------------------------------------------------------------- creating

  lemma InsertIsValid(t: Table, id: Id, row: Module)
    requires Valid(t) && id !in t
    requires row.parent.None? ==> row.level == 1 && row.path == "/" + row.name
    requires row.parent.Some? ==>
      && row.parent.value in t && t[row.parent.value].level < MAX_LEVEL
      && row.level == t[row.parent.value].level + 1 && row.path == t[row.parent.value].path + "/" + row.name
    ensures Valid(t[id := row])
  {
    var u := t[id := row];
    forall other | other in u ensures LevelFits(u, other) && PathFits(u, other) {
      if other != id {
        assert LevelFits(t, other) && PathFits(t, other);
      } else if row.parent.Some? {
        assert LevelFits(t, row.parent.value);
      }
    }
  }

  // ------------------------------------------------------------------- renaming

  /** The same rows up to paths. */
  ghost predicate PathsOnly(t: Table, u: Table) {
    t.Keys == u.Keys && forall id :: id in t ==> u[id] == t[id].(path := u[id].path)
  }

  ghost predicate UnderAny(t: Table, roots: set<Id>, id: Id) {
    exists c :: c in roots && Under(t, c, id)
  }

  /** The subtrees of `done` have fitting paths, all other rows are as before. */
  ghost predicate Rewritten(before: Table, now: Table, done: set<Id>) {
    && PathsOnly(before, now)
    && forall id :: id in now ==> if UnderAny(before, done, id) then PathFits(now, id) else now[id] == before[id]
  }

  lemma NextChild(t: Table, parent: Id, children: seq<Id>, i: nat)
    requires i < |children| && Distinct(children) && forall id: Id :: id in children <==> IsChild(t, parent, id)
    ensures forall d :: d in Elements(children[..i]) ==> IsChild(t, parent, d)
    ensures IsChild(t, parent, children[i]) && children[i] !in Elements(children[..i])
    ensures Elements(children[..i + 1]) == Elements(children[..i]) + {children[i]}
  {
    assert children[i] in children;
  }

  /** Subtrees of siblings are disjoint. */
  lemma SiblingsApart(t: Table, parent: Id, done: set<Id>, c: Id, id: Id)
    requires Shaped(t) && parent in t && IsChild(t, parent, c) && c !in done && forall d :: d in done ==> IsChild(t, parent, d)
    ensures Under(t, c, id) ==> !UnderAny(t, done, id)
  {
    StrictlyUnderAChild(t, parent, id);
  }

  lemma UntouchedSoFar(before: Table, now: Table, parent: Id, done: set<Id>, c: Id)
    requires Shaped(before) && parent in before && Rewritten(before, now, done)
    requires IsChild(before, parent, c) && c !in done && forall d :: d in done ==> IsChild(before, parent, d)
    ensures now[c] == before[c] && now[parent] == before[parent]
  {
    assert Ancestor(before, c, 0) == Some(c);
    SiblingsApart(before, parent, done, c, c);
    StrictlyUnderAChild(before, parent, parent);
    UnderSplits(before, parent, parent);
  }

  /** One child's subtree has fitting paths now, every row outside it is as it was. */
  ghost predicate OneSubtree(before: Table, was: Table, now: Table, c: Id) {
    && was.Keys == now.Keys == before.Keys
    && (forall id :: Under(before, c, id) ==> PathFits(now, id))
    && (forall id :: id in now && !Under(before, c, id) ==> now[id] == was[id])
  }

  /** Below `c` paths fit, all other rows are those of `entered`. */
  ghost predicate BelowRewritten(shape: Table, entered: Table, now: Table, c: Id) {
    && shape.Keys == entered.Keys == now.Keys
    && (forall id :: id in now && !StrictlyUnder(shape, c, id) ==> now[id] == entered[id])
    && (forall id :: StrictlyUnder(shape, c, id) ==> PathFits(now, id))
  }

  lemma SameBelow(before: Table, entered: Table, now: Table, c: Id)
    requires SameShape(before, entered) && entered.Keys == now.Keys && BelowRewritten(entered, entered, now, c)
    ensures BelowRewritten(before, entered, now, c)
  {
    forall id ensures StrictlyUnder(entered, c, id) <==> StrictlyUnder(before, c, id) {
      SameStrictlyUnder(before, entered, c, id);
    }
  }

  lemma ChildRewritten(before: Table, was: Table, entered: Table, now: Table, parent: Id, c: Id)
    requires Shaped(before) && parent in before && IsChild(before, parent, c) && PathsOnly(before, was)
    requires was[parent] == before[parent] && entered == was[c := was[c].(path := before[parent].path + "/" + was[c].name)]
    requires now.Keys == before.Keys && BelowRewritten(before, entered, now, c)
    ensures OneSubtree(before, was, now, c)
  {
    NotAboveOwnChild(before, parent, c);
    UnderSplits(before, c, parent);
    UnderSplits(before, c, c);
    assert now[c] == entered[c] && now[parent] == was[parent];
    forall id | id in now
      ensures Under(before, c, id) ==> PathFits(now, id)
      ensures !Under(before, c, id) ==> now[id] == was[id]
    {
      UnderSplits(before, c, id);
    }
  }

  lemma RewriteStep(before: Table, was: Table, now: Table, parent: Id, done: set<Id>, c: Id)
    requires Shaped(before) && parent in before && Rewritten(before, was, done) && PathsOnly(before, now)
    requires IsChild(before, parent, c) && c !in done && forall d :: d in done ==> IsChild(before, parent, d)
    requires OneSubtree(before, was, now, c)
    ensures Rewritten(before, now, done + {c})
  {
    forall id | id in now ensures if UnderAny(before, done + {c}, id) then PathFits(now, id) else now[id] == before[id] {
      AnyOrThis(before, done, c, id);
      if !Under(before, c, id) && UnderAny(before, done, id) {
        PathStillFits(before, was, now, c, id);
      }
    }
  }

  lemma EnteredIsShaped(before: Table, was: Table, entered: Table, done: set<Id>, c: Id)
    requires Shaped(before) && Rewritten(before, was, done) && c in was && c in entered && entered == was[c := was[c].(path := entered[c].path)]
    ensures Shaped(entered) && PathsOnly(before, entered)
  {
    SameShapeIsShaped(before, entered);
  }

  lemma ChildDone(before: Table, was: Table, entered: Table, now: Table, parent: Id, done: set<Id>, c: Id)
    requires Shaped(before) && parent in before && Rewritten(before, was, done)
    requires IsChild(before, parent, c) && c !in done && forall d :: d in done ==> IsChild(before, parent, d)
    requires was[parent] == before[parent] && entered == was[c := was[c].(path := before[parent].path + "/" + was[c].name)]
    requires PathsOnly(entered, now) && BelowRewritten(entered, entered, now, c)
    ensures Rewritten(before, now, done + {c})
  {
    SameBelow(before, entered, now, c);
    ChildRewritten(before, was, entered, now, parent, c);
    RewriteStep(before, was, now, parent, done, c);
  }

  lemma AnyOrThis(t: Table, done: set<Id>, c: Id, id: Id)
    ensures UnderAny(t, done + {c}, id) <==> UnderAny(t, done, id) || Under(t, c, id)
  {
  }

  lemma PathStillFits(before: Table, was: Table, now: Table, c: Id, id: Id)
    requires Shaped(before) && id in before && OneSubtree(before, was, now, c) && PathsOnly(before, was) && !Under(before, c, id)
    requires PathFits(was, id)
    ensures PathFits(now, id)
  {
    assert LevelFits(before, id);
    UnderParent(before, c, id);
    assert was[id].parent == before[id].parent;
  }

  lemma NotAboveOwnChild(t: Table, parent: Id, c: Id)
    requires Shaped(t) && parent in t && IsChild(t, parent, c)
    ensures !Under(t, c, parent) && parent != c
  {
    assert LevelFits(t, c);
    if Under(t, c, parent) {
      var k: nat :| Ancestor(t, parent, k) == Some(c);
      AncestorLevel(t, parent, k);
    }
  }

  lemma SameStrictlyUnder(t: Table, u: Table, root: Id, id: Id)
    requires SameShape(t, u)
    ensures StrictlyUnder(u, root, id) <==> StrictlyUnder(t, root, id)
  {
    if id in t && t[id].parent.Some? {
      SameShapeUnder(t, u, root, t[id].parent.value);
    }
  }

  lemma AllRewritten(before: Table, now: Table, parent: Id, children: seq<Id>)
    requires Shaped(before) && parent in before && Rewritten(before, now, Elements(children))
    requires forall id: Id :: id in children <==> IsChild(before, parent, id)
    ensures BelowRewritten(before, before, now, parent)
  {
    forall id ensures UnderAny(before, Elements(children), id) <==> StrictlyUnder(before, parent, id) {
      StrictlyUnderAChild(before, parent, id);
    }
  }

  function NewName(row: Module, name: string): string {
    if name != "" then name else row.name
  }

  /**
    The table after an update: still a valid forest of the same shape, with the new name and
    sort key. A rename moves the paths of exactly the renamed subtree, anything else no path.
  */
  ghost predicate Updated(before: Table, now: Table, id: Id, name: string, sort: int)
    requires id in before
  {
    && Valid(now) && SameShape(before, now)
    && now[id].sort == sort && now[id].name == NewName(before[id], name)
    && (forall other :: other in now && other != id ==> now[other] == before[other].(path := now[other].path))
    && (forall other :: other in now ==>
          (now[other].path != before[other].path <==> NewName(before[id], name) != before[id].name && Under(before, id, other)))
  }

  lemma EntryIsShaped(before: Table, entered: Table, id: Id)
    requires Valid(before) && id in before && id in entered
    requires entered == before[id := before[id].(name := entered[id].name, sort := entered[id].sort)]
    ensures Shaped(entered) && SameShape(before, entered)
  {
    SameShapeIsShaped(before, entered);
  }

  lemma UpdateResult(before: Table, entered: Table, now: Table, id: Id, name: string, sort: int)
    requires Valid(before) && id in before && entered == before[id := before[id].(name := NewName(before[id], name), sort := sort)]
    requires NewName(before[id], name) == before[id].name ==> now == entered
    requires NewName(before[id], name) != before[id].name ==> PathsOnly(entered, now) && OneSubtree(entered, entered, now, id)
    ensures Updated(before, now, id, name, sort)
  {
    if NewName(before[id], name) == before[id].name {
      SortResult(before, now, id, name, sort);
    } else {
      RenameResult(before, entered, now, id, name, sort);
    }
  }

  lemma SortResult(before: Table, now: Table, id: Id, name: string, sort: int)
    requires Valid(before) && id in before && now == before[id := before[id].(sort := sort)]
    requires NewName(before[id], name) == before[id].name
    ensures Updated(before, now, id, name, sort)
  {
    SortOnlyIsValid(before, now, id);
    SameShapeEntry(before, now, id);
    forall other | other in now ensures now[other].path == before[other].path && (other != id ==> now[other] == before[other]) {
    }
  }

  lemma RenameResult(before: Table, entered: Table, now: Table, id: Id, name: string, sort: int)
    requires Valid(before) && id in before && entered == before[id := before[id].(name := NewName(before[id], name), sort := sort)]
    requires NewName(before[id], name) != before[id].name
    requires PathsOnly(entered, now) && OneSubtree(entered, entered, now, id)
    ensures Updated(before, now, id, name, sort)
  {
    SameShapeEntry(before, entered, id);
    RenamedRows(before, entered, now, id, name, sort);
  }

  lemma SameShapeEntry(before: Table, entered: Table, id: Id)
    requires id in before && id in entered
    requires entered == before[id := before[id].(name := entered[id].name, sort := entered[id].sort)]
    ensures SameShape(before, entered)
  {
  }

  lemma RenamedRows(before: Table, entered: Table, now: Table, id: Id, name: string, sort: int)
    requires Renames(before, entered, now, id) && entered[id] == before[id].(name := NewName(before[id], name), sort := sort)
    requires NewName(before[id], name) != before[id].name
    ensures Updated(before, now, id, name, sort)
  {
    RenameIsValid(before, entered, now, id);
    RenameMovesSubtree(before, entered, now, id);
  }

  lemma SortOnlyIsValid(before: Table, now: Table, id: Id)
    requires Valid(before) && id in before && id in now && now == before[id := before[id].(sort := now[id].sort)]
    ensures Valid(now)
  {
    forall other | other in now ensures LevelFits(now, other) && PathFits(now, other) {
      assert LevelFits(before, other) && PathFits(before, other);
    }
  }

  lemma RootRewritten(before: Table, entered: Table, now: Table, id: Id)
    requires Shaped(before) && id in before && SameShape(before, entered) && PathFits(entered, id)
    requires entered == before[id := before[id].(path := entered[id].path)]
    requires now.Keys == before.Keys && BelowRewritten(before, entered, now, id)
    ensures OneSubtree(before, before, now, id)
  {
    assert LevelFits(before, id);
    UnderSplits(before, id, id);
    if before[id].parent.Some? {
      NotAboveOwnChild(before, before[id].parent.value, id);
      UnderSplits(before, id, before[id].parent.value);
    }
    forall other | other in now
      ensures Under(before, id, other) ==> PathFits(now, other)
      ensures !Under(before, id, other) ==> now[other] == before[other]
    {
      UnderSplits(before, id, other);
    }
  }

  /** A rename: `entered` has the new name, `now` the new paths too. */
  ghost predicate Renames(before: Table, entered: Table, now: Table, id: Id) {
    && Valid(before) && id in before && SameShape(before, entered) && PathsOnly(entered, now)
    && (forall other :: other in before && other != id ==> entered[other] == before[other])
    && OneSubtree(entered, entered, now, id)
  }

  /** Outside the renamed subtree every row is as before; inside, every path fits. */
  lemma RenameSides(before: Table, entered: Table, now: Table, id: Id, other: Id)
    requires Renames(before, entered, now, id) && other in before
    ensures Under(before, id, other) ==> PathFits(now, other)
    ensures !Under(before, id, other) ==> now[other] == before[other]
  {
    SameShapeUnder(before, entered, id, other);
    UnderSplits(before, id, id);
  }

  lemma RenameIsValid(before: Table, entered: Table, now: Table, id: Id)
    requires Renames(before, entered, now, id)
    ensures Valid(now)
  {
    SameShapeIsShaped(before, now);
    forall other | other in now ensures PathFits(now, other) {
      assert PathFits(before, other) && LevelFits(before, other);
      RenameSides(before, entered, now, id, other);
      if before[other].parent.Some? {
        UnderParent(before, id, other);
        RenameSides(before, entered, now, id, before[other].parent.value);
      }
    }
  }

  lemma RenameMovesSubtree(before: Table, entered: Table, now: Table, id: Id)
    requires Renames(before, entered, now, id) && entered[id].name != before[id].name
    ensures forall other :: other in now ==> (now[other].path != before[other].path <==> Under(before, id, other))
  {
    RenameIsValid(before, entered, now, id);
    RenamedRootMoves(before, entered, now, id);
    forall other | other in now ensures now[other].path != before[other].path <==> Under(before, id, other) {
      RenameSides(before, entered, now, id, other);
      if Under(before, id, other) {
        forall c | StrictlyUnder(before, id, c) ensures PathFits(before, c) && PathFits(now, c) && before[c].name == now[c].name {
          UnderSplits(before, id, c);
          RenameSides(before, entered, now, id, c);
        }
        var k: nat :| Ancestor(before, other, k) == Some(id);
        var suffix := SameSuffix(before, now, id, other, k);
        DifferentHeads(before[id].path, now[id].path, suffix);
      }
    }
  }

  lemma RenamedRootMoves(before: Table, entered: Table, now: Table, id: Id)
    requires Renames(before, entered, now, id) && entered[id].name != before[id].name
    ensures now[id].path != before[id].path
  {
    assert PathFits(before, id) && LevelFits(before, id);
    UnderSplits(before, id, id);
    RenameSides(before, entered, now, id, id);
    if before[id].parent.Some? {
      NotAboveOwnChild(before, before[id].parent.value, id);
      RenameSides(before, entered, now, id, before[id].parent.value);
    }
    var head := if before[id].parent.None? then "/" else before[before[id].parent.value].path + "/";
    DifferentTails(head, before[id].name, entered[id].name);
  }

  lemma DifferentTails(head: string, a: string, b: string)
    ensures a != b ==> head + a != head + b
  {
    assert (head + a)[|head|..] == a && (head + b)[|head|..] == b;
  }

  lemma DifferentHeads(a: string, b: string, tail: string)
    ensures a != b ==> a + tail != b + tail
  {
    if |a| == |b| {
      assert (a + tail)[..|a|] == a && (b + tail)[..|b|] == b;
    }
  }

  // ------------------------------------------------------------------- deleting

  /** The subtrees of `done` are gone, everything else is there. */
  ghost predicate Cut(before: Table, now: Table, done: set<Id>) {
    Pruned(before, now) && forall id :: id in now <==> id in before && !UnderAny(before, done, id)
  }

  lemma NothingCut(t: Table)
    requires Shaped(t)
    ensures Cut(t, t, {})
  {
    forall id | id in t && t[id].parent.Some? ensures t[id].parent.value in t {
      assert LevelFits(t, id);
    }
  }

  /** Everything strictly under a module is gone, everything else is there. */
  ghost predicate Emptied(before: Table, now: Table, parent: Id) {
    Pruned(before, now) && forall id :: id in now <==> id in before && !StrictlyUnder(before, parent, id)
  }

  lemma StillThere(before: Table, now: Table, parent: Id, done: set<Id>, c: Id)
    requires Shaped(before) && parent in before && Cut(before, now, done)
    requires IsChild(before, parent, c) && c !in done && forall d :: d in done ==> IsChild(before, parent, d)
    ensures c in now && now[c] == before[c] && Shaped(now)
  {
    assert Ancestor(before, c, 0) == Some(c);
    SiblingsApart(before, parent, done, c, c);
    PrunedIsValid(before, now);
  }

  lemma CutStep(before: Table, was: Table, emptied: Table, now: Table, done: set<Id>, c: Id)
    requires Shaped(was) && c in was && Cut(before, was, done)
    requires Emptied(was, emptied, c) && now == emptied - {c}
    ensures Cut(before, now, done + {c})
  {
    forall id ensures id in now <==> id in was && !Under(was, c, id) {
      UnderSplits(was, c, id);
    }
    SubtreeRemovalPrunes(was, now, c);
    forall id | id in was ensures Under(was, c, id) <==> Under(before, c, id) {
      PrunedUnder(before, was, c, id);
    }
    forall id ensures UnderAny(before, done + {c}, id) <==> UnderAny(before, done, id) || Under(before, c, id) {
    }
  }

  lemma AllCut(before: Table, now: Table, parent: Id, children: seq<Id>)
    requires Shaped(before) && parent in before && Cut(before, now, Elements(children))
    requires forall id: Id :: id in children <==> IsChild(before, parent, id)
    ensures Emptied(before, now, parent)
  {
    forall id ensures UnderAny(before, Elements(children), id) <==> StrictlyUnder(before, parent, id) {
      StrictlyUnderAChild(before, parent, id);
    }
  }

  lemma DeletedSubtree(before: Table, now: Table, id: Id)
    requires Valid(before) && id in before && forall other :: other in now <==> other in before && other != id && !StrictlyUnder(before, id, other)
    requires forall other :: other in now ==> now[other] == before[other]
    ensures Pruned(before, now) && Valid(now)
    ensures forall other :: other in now <==> other in before && !Under(before, id, other)
  {
    forall other ensures other in now <==> other in before && !Under(before, id, other) {
      UnderSplits(before, id, other);
    }
    SubtreeRemovalPrunes(before, now, id);
    PrunedIsValid(before, now);
  }

  // ------------------------------------------------------------------ searching

  lemma DistinctAppend(a: seq<Id>, b: seq<Id>)
    requires Distinct(a) && Distinct(b) && forall id: Id :: id in a ==> id !in b
    ensures Distinct(a + b)
  {
    assert forall i :: 0 <= i < |a| ==> a[i] in a;
    assert forall i :: 0 <= i < |b| ==> b[i] in b;
  }

  lemma NextLevel(t: Table, root: Id, frontier: seq<Id>, children: seq<Id>, ids: seq<Id>, d: nat)
    requires Shaped(t) && root in t && Distinct(ids) && Distinct(children)
    requires forall id: Id :: id in frontier <==> AtDistance(t, root, id, d)
    requires forall id: Id :: id in ids <==> Within(t, root, id, d)
    requires forall id: Id :: id in children <==> id in t && t[id].parent.Some? && t[id].parent.value in frontier
    ensures Distinct(ids + children)
    ensures forall id: Id :: id in children <==> AtDistance(t, root, id, d + 1)
    ensures forall id: Id :: id in ids + children <==> Within(t, root, id, d + 1)
    ensures children != [] ==> d + 1 < MAX_LEVEL
  {
    forall id: Id ensures id in children <==> AtDistance(t, root, id, d + 1) {
      ChildIsOneFurther(t, root, id, d);
    }
    forall id: Id ensures Within(t, root, id, d + 1) <==> Within(t, root, id, d) || AtDistance(t, root, id, d + 1) {
    }
    forall id: Id | id in ids ensures id !in children {
      var j: nat :| j <= d && AtDistance(t, root, id, j);
      if AtDistance(t, root, id, d + 1) {
        OneDistance(t, root, id, j, d + 1);
      }
    }
    DistinctAppend(ids, children);
    if children != [] {
      assert children[0] in children;
      AncestorLevel(t, children[0], d + 1);
      assert LevelFits(t, children[0]) && LevelFits(t, root);
    }
  }

  // ------------------------------------------------------------------ flattening

  /** The trees hold disjoint subtrees. */
  ghost predicate Apart(t: Table, nodes: seq<Node>) {
    forall i, j, id :: 0 <= i < j < |nodes| && Under(t, nodes[i].id, id) ==> !Under(t, nodes[j].id, id)
  }

  ghost predicate UnderOne(t: Table, nodes: seq<Node>, id: Id) {
    exists i :: 0 <= i < |nodes| && Under(t, nodes[i].id, id)
  }

  /** A tree flattens to exactly the subtree of its root, each module once. */
  lemma {:induction false} FlattenIsSubtree(t: Table, node: Node)
    requires Shaped(t) && node.id in t && Grown(t, node)
    ensures Distinct(Flatten(node)) && forall id: Id :: id in Flatten(node) <==> Under(t, node.id, id)
    decreases node, 1
  {
    ChildrenApart(t, node);
    FlattenIsUnion(t, node.children);
    forall id: Id ensures UnderOne(t, node.children, id) <==> StrictlyUnder(t, node.id, id) {
      OneChild(t, node, id);
    }
    UnderSplits(t, node.id, node.id);
    assert node.id !in FlattenAll(node.children);
    DistinctAppend([node.id], FlattenAll(node.children));
    forall id: Id ensures id in Flatten(node) <==> Under(t, node.id, id) {
      UnderSplits(t, node.id, id);
    }
  }

  lemma {:induction false} FlattenIsUnion(t: Table, nodes: seq<Node>)
    requires Shaped(t) && Apart(t, nodes) && forall i :: 0 <= i < |nodes| ==> nodes[i].id in t && Grown(t, nodes[i])
    ensures Distinct(FlattenAll(nodes)) && forall id: Id :: id in FlattenAll(nodes) <==> UnderOne(t, nodes, id)
    decreases nodes, 0
  {
    if nodes != [] {
      var head, rest := nodes[0], nodes[1..];
      FlattenIsSubtree(t, head);
      FlattenIsUnion(t, rest);
      forall id: Id ensures UnderOne(t, nodes, id) <==> Under(t, head.id, id) || UnderOne(t, rest, id) {
        if UnderOne(t, rest, id) {
          var i :| 0 <= i < |rest| && Under(t, rest[i].id, id);
          assert nodes[i + 1] == rest[i];
        }
        if UnderOne(t, nodes, id) && !Under(t, head.id, id) {
          var i :| 0 <= i < |nodes| && Under(t, nodes[i].id, id);
          assert rest[i - 1] == nodes[i];
        }
      }
      forall id: Id | id in Flatten(head) ensures id !in FlattenAll(rest) {
        assert forall i :: 0 <= i < |rest| ==> rest[i] == nodes[i + 1];
      }
      DistinctAppend(Flatten(head), FlattenAll(rest));
    }
  }

  lemma ChildrenApart(t: Table, node: Node)
    requires Shaped(t) && node.id in t && Grown(t, node)
    ensures Apart(t, node.children) && forall i :: 0 <= i < |node.children| ==> IsChild(t, node.id, node.children[i].id)
  {
    var ids := Ids(node.children);
    forall i | 0 <= i < |node.children| ensures IsChild(t, node.id, node.children[i].id) {
      assert ids[i] in ids;
    }
    forall i, j, id | 0 <= i < j < |node.children| && Under(t, node.children[i].id, id) ensures !Under(t, node.children[j].id, id) {
      StrictlyUnderAChild(t, node.id, id);
      assert ids[i] != ids[j];
    }
  }

  lemma OneChild(t: Table, node: Node, id: Id)
    requires Shaped(t) && node.id in t && Grown(t, node)
    ensures UnderOne(t, node.children, id) <==> StrictlyUnder(t, node.id, id)
  {
    StrictlyUnderAChild(t, node.id, id);
    var ids := Ids(node.children);
    if UnderOne(t, node.children, id) {
      var i :| 0 <= i < |node.children| && Under(t, node.children[i].id, id);
      assert ids[i] in ids;
      assert IsChild(t, node.id, node.children[i].id);
    }
    if StrictlyUnder(t, node.id, id) {
      var c :| IsChild(t, node.id, c) && Under(t, c, id);
      assert c in ids;
      var i :| 0 <= i < |ids| && ids[i] == c;
      assert node.children[i].id == c;
    }
  }

  // ------------------------------------------------------------------ the root list

  /** Every row has a root above it. */
  lemma {:induction false} HasRoot(t: Table, id: Id) returns (root: Id)
    requires Shaped(t) && id in t
    ensures root in t && t[root].parent.None? && Under(t, root, id)
    decreases t[id].level
  {
    assert LevelFits(t, id);
    if t[id].parent.None? {
      root := id;
      assert Ancestor(t, id, 0) == Some(id);
    } else {
      root := HasRoot(t, t[id].parent.value);
      UnderParent(t, root, id);
    }
  }

  lemma RootsApart(t: Table, a: Id, b: Id, id: Id)
    requires Shaped(t) && a in t && b in t && t[a].parent.None? && t[b].parent.None? && Under(t, a, id) && Under(t, b, id)
    ensures a == b
  {
    UnderIsLinear(t, a, b, id);
    UnderSplits(t, a, b);
    UnderSplits(t, b, a);
  }

  lemma RootsAreEverything(t: Table, roots: seq<Node>)
    requires Shaped(t) && Siblings(t, None, roots)
    ensures Distinct(FlattenAll(roots)) && forall id: Id :: id in FlattenAll(roots) <==> id in t
  {
    var ids := Ids(roots);
    forall i | 0 <= i < |roots| ensures roots[i].id in t && t[roots[i].id].parent.None? {
      assert ids[i] in ids;
    }
    forall i, j, id | 0 <= i < j < |roots| && Under(t, roots[i].id, id) ensures !Under(t, roots[j].id, id) {
      assert ids[i] != ids[j];
      if Under(t, roots[j].id, id) {
        RootsApart(t, roots[i].id, roots[j].id, id);
      }
    }
    FlattenIsUnion(t, roots);
    forall id: Id | id in t ensures UnderOne(t, roots, id) {
      var root := HasRoot(t, id);
      assert root in ids;
      var i :| 0 <= i < |ids| && ids[i] == root;
      assert roots[i].id == root;
    }
  }

  /** The subtree of a module as a table of its own, its root cut loose. */
  ghost function Scoped(t: Table, root: Id): Table {
    map id | id in t && Under(t, root, id) :: if id == root then t[id].(parent := None) else t[id]
  }

  lemma ScopedIsShaped(t: Table, root: Id)
    requires Shaped(t) && root in t
    ensures Shaped(Scoped(t, root))
  {
    var s := Scoped(t, root);
    forall id | id in s ensures LevelFits(s, id) {
      assert LevelFits(t, id);
      UnderSplits(t, root, id);
    }
  }

  lemma ScopedHasOneRoot(t: Table, root: Id, roots: seq<Node>)
    requires Shaped(t) && root in t && Shaped(Scoped(t, root)) && Siblings(Scoped(t, root), None, roots)
    ensures |roots| == 1 && roots[0].id == root && Grown(Scoped(t, root), roots[0])
    ensures Distinct(FlattenAll(roots)) && forall id: Id :: id in FlattenAll(roots) <==> Under(t, root, id)
  {
    var s, ids := Scoped(t, root), Ids(roots);
    UnderSplits(t, root, root);
    forall id: Id ensures id in ids <==> id == root {
      UnderSplits(t, root, id);
    }
    OnlyOne(ids, root);
    RootsAreEverything(s, roots);
  }

  lemma OnlyOne(ids: seq<Id>, root: Id)
    requires Distinct(ids) && forall id: Id :: id in ids <==> id == root
    ensures ids == [root]
  {
    assert root in ids;
    assert forall i :: 0 <= i < |ids| ==> ids[i] in ids;
    assert ids[0] == root == ids[|ids| - 1];
  }
}
