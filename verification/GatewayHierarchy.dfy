/**
  Workspaces, their applications and archiving. With any number of workers the tree
  breaks by a finishing transaction only: one that archives a workspace with unarchived
  applications, or one that brings back an application whose workspace no longer takes any.

  When one process runs the worker and the background loops, only the first can happen,
  and only after a race. The row update that finishes a delete is guarded by the revision
  alone, and adopting a discovered workspace resets its sync state without looking at it.
  So adopting a workspace whose deletion is past its row check lets applications be
  created under a workspace that is about to be archived.
*/
module GatewayHierarchy {
  import opened Prelude
  import opened GatewayModel
  import opened GatewaySteps
  import opened GatewayOutbox
  import opened GatewayFencing
  import opened GatewayRuns
  import opened GatewayRevisions
  import opened GatewayIdentity

  /** One worker at a time, and no background row write while it is busy. */
  ghost predicate OneProcess(w: World, a: Action) {
    a.ClaimEvent? || a.MissingRow? ==> w.workers == map[]
  }

  /** An unarchived workspace that is not being deleted. */
  predicate Accepts(t: Tables, p: Id) {
    p in t.records && t.records[p].kind == Workspace && !t.records[p].archived && t.records[p].syncState != Deleting
  }

  /** A row filed under a row is an application; unarchived, it stands under a workspace that takes applications. */
  ghost predicate ParentOk(t: Tables, c: Record) {
    c.parent.OfRecord? ==> c.kind == Application && (!c.archived ==> Accepts(t, c.parent.id))
  }

  ghost predicate HierarchyOk(t: Tables) {
    forall c :: c in t.records ==> ParentOk(t, t.records[c])
  }

  /** The row a worker is projecting is the event's row, still unarchived. */
  ghost predicate FlightLive(w: World, i: WorkerId)
    requires i in w.workers
  {
    InFlight(w.workers[i]) ==>
      var row := w.workers[i].row;
      && row.id == w.workers[i].event.resourceId && !row.archived
      && row.id in w.tables.records && !w.tables.records[row.id].archived && w.tables.records[row.id].kind == row.kind
  }

  /** A workspace whose deletion passed its check is still being deleted, at the same revision. */
  ghost predicate FlightDeleting(w: World, i: WorkerId)
    requires i in w.workers
  {
    InFlight(w.workers[i]) && w.workers[i].event.action == Delete && w.workers[i].row.kind == Workspace ==>
      var row := w.workers[i].row;
      && row.id in w.tables.records && w.tables.records[row.id].syncState == Deleting
      && w.tables.records[row.id].desiredRevision == row.desiredRevision
  }

  /** Holds in every run of one process. */
  ghost predicate ProcessInv(w: World) {
    && (forall i, j :: i in w.workers && j in w.workers ==> i == j)
    && (forall i :: i in w.workers ==> Holding(w, i) && FlightLive(w, i))
  }

  ghost predicate HierarchyInv(w: World) {
    && HierarchyOk(w.tables)
    && (forall i :: i in w.workers ==> FlightDeleting(w, i))
  }

  /** Adopting a workspace while worker `i` is deleting it and past its row check. */
  ghost predicate Races(w: World, a: Action, i: WorkerId) {
    && a.AdoptExistingRequest? && a.kind == Workspace && Decide(w, a).Some? && Decide(w, a).value.Commit?
    && i in w.workers && InFlight(w.workers[i]) && w.workers[i].event.action == Delete && w.workers[i].row.id == a.id
  }

  ghost predicate AdoptionRace(w: World, a: Action) {
    exists i :: Races(w, a, i)
  }

  /**
    A finishing transaction that archives a row with unarchived children, or brings back
    an archived one whose parent does not take it any more.
  */
  ghost predicate Orphans(w: World, a: Action) {
    && a.FinishEvent? && a.worker in w.workers && w.workers[a.worker].Projected?
    && var phase := w.workers[a.worker];
       && FinishLands(w.tables, phase.event, phase.token, phase.row, phase.failed)
       && var current := w.tables.records[phase.row.id];
          if !phase.failed && phase.event.action == Delete then HasChildren(w.tables, phase.row.id)
          else current.archived && current.parent.OfRecord? && !Accepts(w.tables, current.parent.id)
  }

  // ---------------------------------------------------------- writes to one row

  /** Writing `r` keeps the tree: its parent is fine, and it stays fit for its own children. */
  ghost predicate SafePut(t: Tables, r: Record) {
    && ParentOk(t, r)
    && (r.parent.OfRecord? && !r.archived ==> r.parent.id != r.id)
    && (HasChildren(t, r.id) ==> r.kind == Workspace && !r.archived && r.syncState != Deleting)
  }

  lemma SafePutKeepsTree(t: Tables, r: Record)
    requires HierarchyOk(t) && SafePut(t, r)
    ensures HierarchyOk(PutRow(t, r))
  {
    var t' := PutRow(t, r);
    forall c | c in t'.records
      ensures ParentOk(t', t'.records[c])
    {
      if c != r.id {
        assert ParentOk(t, t.records[c]);
      }
    }
  }

  /** A row that changes neither kind, parent nor archiving, and does not start deleting. */
  ghost predicate Mild(before: Record, after: Record) {
    && after.id == before.id && after.kind == before.kind && after.parent == before.parent && after.archived == before.archived
    && (after.syncState == Deleting ==> before.syncState == Deleting)
  }

  lemma MildIsSafe(t: Tables, r: Record)
    requires HierarchyOk(t) && RowsKeyed(t) && r.id in t.records && Mild(t.records[r.id], r)
    ensures SafePut(t, r)
  {
    var before := t.records[r.id];
    assert ParentOk(t, before);
    if HasChildren(t, r.id) {
      var c :| c in t.records && !t.records[c].archived && t.records[c].parent == OfRecord(r.id);
      assert ParentOk(t, t.records[c]);
    }
  }

  // --------------------------------------------------------------- requests

  lemma CreateIsSafe(t: Tables, projects: map<string, string>, p: Principal, kind: Kind, input: ResourceInput, key: string, ids: Ids, now: Time)
    requires HierarchyOk(t) && FreshIds(t, ids)
    ensures var v := DecideCreate(t, projects, p, kind, input, key, ids, now); v.Commit? ==> SafePut(t, v.row)
  {
    forall c | c in t.records && !t.records[c].archived
      ensures t.records[c].parent != OfRecord(ids.record)
    {
      assert ParentOk(t, t.records[c]);
    }
  }

  lemma UpdateIsMild(t: Tables, p: Principal, copy: Record, kind: Kind, input: ResourceInput, children: nat, key: string, ids: Ids, now: Time)
    requires RowsKeyed(t)
    ensures var v := DecideUpdate(t, p, copy, kind, input, children, key, ids, now);
            v.Commit? ==> v.row.id in t.records && Mild(t.records[v.row.id], v.row) && t.records[v.row.id].syncState != Deleting
  {
  }

  lemma DeleteIsSafe(t: Tables, p: Principal, id: Id, kind: Kind, key: string, ids: Ids, now: Time)
    requires HierarchyOk(t) && RowsKeyed(t)
    ensures var v := DecideDelete(t, p, id, kind, key, ids, now); v.Commit? ==> v.row.id == id && SafePut(t, v.row)
  {
    if id in t.records {
      assert ParentOk(t, t.records[id]);
    }
  }

  lemma AdoptClusterIsMild(t: Tables, p: Principal, id: Id, key: string, ids: Ids, now: Time)
    requires RowsKeyed(t)
    ensures var v := DecideAdoptCluster(t, p, id, key, ids, now);
            v.Commit? ==> v.row.id == id && id in t.records && Mild(t.records[id], v.row) && v.row.kind == Cluster
  {
  }

  lemma AdoptExistingIsSafe(t: Tables, projects: map<string, string>, p: Principal, id: Id, kind: Kind, input: ResourceInput, key: string, ids: Ids, now: Time)
    requires HierarchyOk(t) && RowsKeyed(t)
    ensures var v := DecideAdoptExisting(t, projects, p, id, kind, input, key, ids, now);
            v.Commit? ==> v.row.id == id && id in t.records && t.records[id].kind == kind && SafePut(t, v.row) && v.row.syncState == Pending
  {
    var v := DecideAdoptExisting(t, projects, p, id, kind, input, key, ids, now);
    if v.Commit? && HasChildren(t, id) {
      var c :| c in t.records && !t.records[c].archived && t.records[c].parent == OfRecord(id);
      assert ParentOk(t, t.records[c]);
    }
  }

  lemma RequestIsSafe(w: World, a: Action)
    requires Enabled(w, a) && HierarchyOk(w.tables) && RowsKeyed(w.tables) && Decide(w, a).Some?
    ensures var v := Decide(w, a).value; v.Commit? ==> SafePut(w.tables, v.row)
  {
    var t := w.tables;
    var v := Decide(w, a).value;
    if a.CreateRequest? {
      CreateIsSafe(t, w.projects, a.p, a.kind, a.input, a.key, a.ids, w.now);
    } else if a.UpdateRequest? {
      UpdateIsMild(t, a.p, a.copy, a.kind, a.input, a.children, a.key, a.ids, w.now);
      if v.Commit? { MildIsSafe(t, v.row); }
    } else if a.DeleteRequest? {
      DeleteIsSafe(t, a.p, a.id, a.kind, a.key, a.ids, w.now);
    } else if a.AdoptClusterRequest? {
      AdoptClusterIsMild(t, a.p, a.id, a.key, a.ids, w.now);
      if v.Commit? { MildIsSafe(t, v.row); }
    } else if a.AdoptExistingRequest? {
      AdoptExistingIsSafe(t, w.projects, a.p, a.id, a.kind, a.input, a.key, a.ids, w.now);
    } else {
      MildIsSafe(t, v.row);
    }
  }

  // ------------------------------------------------------- background transactions

  /** A row without unarchived children may be archived. */
  lemma ArchivingIsSafe(t: Tables, r: Record)
    requires HierarchyOk(t) && RowsKeyed(t) && r.id in t.records && !HasChildren(t, r.id)
    requires r.archived && r.parent == t.records[r.id].parent && r.kind == t.records[r.id].kind
    ensures SafePut(t, r)
  {
    assert ParentOk(t, t.records[r.id]);
  }

  /** Archiving a row with an unarchived child breaks the tree. */
  lemma ArchivingOrphans(t: Tables, r: Record)
    requires HierarchyOk(t) && HasChildren(t, r.id) && r.archived
    ensures !HierarchyOk(PutRow(t, r))
  {
    var c :| c in t.records && !t.records[c].archived && t.records[c].parent == OfRecord(r.id);
    assert ParentOk(t, t.records[c]);
    assert !ParentOk(PutRow(t, r), PutRow(t, r).records[c]) by {
      assert c != r.id;
    }
  }

  /** An archived row may be brought back exactly when its parent takes it. */
  lemma RevivingIsSafeIff(t: Tables, r: Record)
    requires HierarchyOk(t) && RowsKeyed(t) && r.id in t.records && t.records[r.id].archived
    requires !r.archived && r.parent == t.records[r.id].parent && r.kind == t.records[r.id].kind
    ensures HierarchyOk(PutRow(t, r)) <==> (r.parent.OfRecord? ==> Accepts(t, r.parent.id))
  {
    assert ParentOk(t, t.records[r.id]);
    if r.parent.OfRecord? ==> Accepts(t, r.parent.id) {
      forall c | c in t.records && !t.records[c].archived
        ensures t.records[c].parent != OfRecord(r.id)
      {
        assert ParentOk(t, t.records[c]);
      }
      SafePutKeepsTree(t, r);
    } else {
      assert !ParentOk(PutRow(t, r), PutRow(t, r).records[r.id]);
    }
  }

  /** Any number of workers: what one row of a finishing transaction does to the tree. */
  lemma FinishedRowKeepsTreeIff(t: Tables, copy: Record, e: Event, failed: bool, attempts: nat, now: Time)
    requires HierarchyOk(t) && RowsKeyed(t) && copy.id in t.records && !copy.archived
    ensures var current := t.records[copy.id];
            HierarchyOk(PutRow(t, FinishedRow(current, copy, e, failed, attempts, now))) <==>
            if !failed && e.action == Delete then !HasChildren(t, copy.id)
            else !(current.archived && current.parent.OfRecord? && !Accepts(t, current.parent.id))
  {
    var current := t.records[copy.id];
    var row := FinishedRow(current, copy, e, failed, attempts, now);
    if !failed && e.action == Delete {
      if HasChildren(t, copy.id) {
        ArchivingOrphans(t, row);
      } else {
        ArchivingIsSafe(t, row);
        SafePutKeepsTree(t, row);
      }
    } else if current.archived {
      RevivingIsSafeIff(t, row);
    } else {
      MildIsSafe(t, row);
      SafePutKeepsTree(t, row);
    }
  }

  lemma FinishKeepsTreeIff(w: World, a: Action)
    requires Enabled(w, a) && a.FinishEvent? && RowsKeyed(w.tables) && CopiesLive(w) && HierarchyOk(w.tables)
    ensures HierarchyOk(NextTables(w, a)) <==> !Orphans(w, a)
  {
    var phase := w.workers[a.worker];
    var t := w.tables;
    FinishWritesOneRow(t, phase.event, phase.token, phase.row, phase.failed, w.now);
    if FinishLands(t, phase.event, phase.token, phase.row, phase.failed) {
      var attempts := t.events[phase.event.id].attempts;
      FinishedRowKeepsTreeIff(t, phase.row, phase.event, phase.failed, attempts, w.now);
      SameRows(NextTables(w, a), PutRow(t, FinishedRow(t.records[phase.row.id], phase.row, phase.event, phase.failed, attempts, w.now)));
    } else {
      SameRows(NextTables(w, a), t);
    }
  }

  /** The tree is a matter of the rows. */
  lemma SameRows(t: Tables, t': Tables)
    requires t.records == t'.records
    ensures HierarchyOk(t) <==> HierarchyOk(t')
  {
    assert forall c :: c in t.records ==> (ParentOk(t, t.records[c]) <==> ParentOk(t', t'.records[c]));
  }

  lemma ImportIsSafe(t: Tables, r: Record)
    requires HierarchyOk(t) && Importable(t, r)
    ensures SafePut(t, r)
  {
    forall c | c in t.records && !t.records[c].archived
      ensures t.records[c].parent != OfRecord(r.id)
    {
      assert ParentOk(t, t.records[c]);
    }
  }

  lemma BackgroundKeepsTree(w: World, a: Action)
    requires Enabled(w, a) && !IsRequest(a) && !a.FinishEvent? && HierarchyOk(w.tables) && RowsKeyed(w.tables)
    ensures HierarchyOk(BackgroundTables(w, a))
  {
    var t' := BackgroundTables(w, a);
    if a.MissingRow? {
      if t' != w.tables {
        MildIsSafe(w.tables, t'.records[a.copy.id]);
        SafePutKeepsTree(w.tables, t'.records[a.copy.id]);
      }
    } else if a.Discover? {
      ImportIsSafe(w.tables, a.row);
      SafePutKeepsTree(w.tables, a.row);
    } else {
      assert t'.records == w.tables.records;
    }
  }

  lemma RequestKeepsTree(w: World, a: Action)
    requires Enabled(w, a) && IsRequest(a) && HierarchyOk(w.tables) && RowsKeyed(w.tables)
    ensures HierarchyOk(NextTables(w, a))
  {
    if Decide(w, a).Some? && Decide(w, a).value.Commit? {
      RequestIsSafe(w, a);
      var v := Decide(w, a).value;
      SafePutKeepsTree(w.tables, v.row);
      SameRows(PutRow(w.tables, v.row), Write(w.tables, v));
    }
  }

  /** Any number of workers: a step breaks the tree exactly when it is such a finishing transaction. */
  lemma TreeKeptIff(w: World, a: Action)
    requires Enabled(w, a) && RowsKeyed(w.tables) && CopiesLive(w) && HierarchyOk(w.tables)
    ensures HierarchyOk(NextTables(w, a)) <==> !Orphans(w, a)
  {
    if IsRequest(a) {
      RequestKeepsTree(w, a);
    } else if a.FinishEvent? {
      FinishKeepsTreeIff(w, a);
    } else {
      BackgroundKeepsTree(w, a);
    }
  }

  lemma RunStepKeepsTreeIff(ws: seq<World>, acts: seq<Action>, k: nat)
    requires IsRun(ws, acts) && Init(ws[0]) && k < |acts| && HierarchyOk(ws[k].tables)
    ensures HierarchyOk(ws[k + 1].tables) <==> !Orphans(ws[k], acts[k])
  {
    RunKeepsIdentity(ws, acts, k);
    assert StepAt(ws, acts, k);
    TreeKeptIff(ws[k], acts[k]);
  }

  /** In every run, with any number of workers, the tree stays whole exactly as long as no such transaction happens. */
  lemma {:induction false} TreeUntilOrphaned(ws: seq<World>, acts: seq<Action>, j: nat)
    requires IsRun(ws, acts) && Init(ws[0]) && j < |ws|
    ensures (forall k: nat :: k <= j ==> HierarchyOk(ws[k].tables)) <==> (forall k: nat :: k < j ==> !Orphans(ws[k], acts[k]))
  {
    if j > 0 {
      TreeUntilOrphaned(ws, acts, j - 1);
      if HierarchyOk(ws[j - 1].tables) {
        RunStepKeepsTreeIff(ws, acts, j - 1);
      }
    }
  }

  // ------------------------------------------------------- the worker's own row

  lemma RequestKeepsArchived(w: World, a: Action)
    requires Enabled(w, a) && RowsKeyed(w.tables) && Decide(w, a).Some?
    ensures var v := Decide(w, a).value;
            v.Commit? && v.row.id in w.tables.records ==> v.row.archived == w.tables.records[v.row.id].archived
  {
  }

  /** Background steps other than a finish rewrite one live row at most, keeping it unarchived. */
  lemma BackgroundKeepsArchived(w: World, a: Action, id: Id)
    requires Enabled(w, a) && RowsKeyed(w.tables) && !IsRequest(a) && !a.FinishEvent? && id in w.tables.records
    ensures id in BackgroundTables(w, a).records && BackgroundTables(w, a).records[id].archived == w.tables.records[id].archived
    ensures !a.MissingRow? ==> BackgroundTables(w, a).records[id] == w.tables.records[id]
  {
    var t' := BackgroundTables(w, a);
    if !a.MissingRow? && !a.Discover? {
      assert t'.records == w.tables.records;
    }
  }

  lemma CommitKeepsArchived(t: Tables, v: Verdict, id: Id)
    requires id in t.records && (v.Commit? && v.row.id in t.records ==> v.row.archived == t.records[v.row.id].archived)
    ensures id in Write(t, v).records && Write(t, v).records[id].archived == t.records[id].archived
  {
  }

  /** Only a finishing transaction archives or unarchives. */
  lemma OnlyFinishArchives(w: World, a: Action, id: Id)
    requires Enabled(w, a) && RowsKeyed(w.tables) && !a.FinishEvent? && id in w.tables.records
    ensures id in NextTables(w, a).records && NextTables(w, a).records[id].archived == w.tables.records[id].archived
  {
    if !IsRequest(a) {
      BackgroundKeepsArchived(w, a, id);
    } else if Decide(w, a).Some? {
      RequestKeepsArchived(w, a);
      CommitKeepsArchived(w.tables, Decide(w, a).value, id);
    }
  }

  /** Adoption is the only request that touches a workspace in deletion. */
  lemma RequestLeavesDeleting(w: World, a: Action, id: Id)
    requires Enabled(w, a) && RowsKeyed(w.tables) && IsRequest(a) && Decide(w, a).Some?
    requires id in w.tables.records && w.tables.records[id].syncState == Deleting && w.tables.records[id].kind == Workspace
    requires !(a.AdoptExistingRequest? && a.id == id)
    ensures var v := Decide(w, a).value; v.Commit? ==> v.row.id != id || v.row == w.tables.records[id]
  {
  }

  lemma NextLeavesDeleting(w: World, a: Action, id: Id)
    requires Enabled(w, a) && RowsKeyed(w.tables) && !a.FinishEvent? && !a.MissingRow?
    requires id in w.tables.records && w.tables.records[id].syncState == Deleting && w.tables.records[id].kind == Workspace
    requires a.AdoptExistingRequest? && a.id == id ==> Decide(w, a).Some? && !Decide(w, a).value.Commit?
    ensures id in NextTables(w, a).records && NextTables(w, a).records[id] == w.tables.records[id]
  {
    if !IsRequest(a) {
      BackgroundKeepsArchived(w, a, id);
    } else if Decide(w, a).Some? {
      if !(a.AdoptExistingRequest? && a.id == id) {
        RequestLeavesDeleting(w, a, id);
      }
      assert NextTables(w, a) == Write(w.tables, Decide(w, a).value);
    }
  }

  /** Check, projection and finish of a row keep it in view; nobody else archives it. */
  lemma FlightStaysLive(w: World, a: Action, w': World, i: WorkerId)
    requires PhaseMoves(w, a, w') && ProcessInv(w) && RowsKeyed(w.tables) && i in w'.workers
    requires !a.FinishEvent? && RowsAdvance(w.tables, w'.tables)
    requires forall id :: id in w.tables.records ==> id in w'.tables.records && w'.tables.records[id].archived == w.tables.records[id].archived
    ensures FlightLive(w', i)
  {
    if i in w.workers && w'.workers[i].event == w.workers[i].event && InFlight(w'.workers[i]) && !InFlight(w.workers[i]) {
      assert w'.workers[i] == Checked(w.tables, w.workers[i].event, w.workers[i].token, false);
      assert MayProject(w.tables.records[w.workers[i].event.resourceId], w.workers[i].event);
    }
    if InFlight(w'.workers[i]) {
      var id := w'.workers[i].row.id;
      assert id in w.tables.records && RowAdvances(w.tables.records[id], w'.tables.records[id]);
    }
  }

  lemma ProcessKeepsHolding(w: World, a: Action, w': World, i: WorkerId)
    requires FenceStep(w, a, w') && FenceInv(w) && ProcessInv(w) && OneProcess(w, a) && i in w'.workers
    ensures Holding(w', i)
  {
    if a.ClaimEvent? {
      assert i == a.worker;
      assert w'.tables.events[a.event].claim == Some(Claim(a.token, w.now + LEASE));
    } else {
      LostToExpiryOnly(w, a, w', i);
    }
  }

  lemma FinishEndsTheWorker(w: World, a: Action)
    requires Enabled(w, a) && a.FinishEvent? && ProcessInv(w)
    ensures Next(w, a).workers == map[]
  {
    assert Next(w, a).workers == NextWorkers(w, a);
  }

  lemma WorkingKeepsProcess(w: World, a: Action, w': World)
    requires FenceStep(w, a, w') && PhaseMoves(w, a, w') && RowsAdvance(w.tables, w'.tables)
    requires forall i :: i in w'.workers ==> i in w.workers || (a.ClaimEvent? && a.worker == i)
    requires forall id :: id in w.tables.records ==> id in w'.tables.records && w'.tables.records[id].archived == w.tables.records[id].archived
    requires OneProcess(w, a) && RowsKeyed(w.tables) && FenceInv(w) && ProcessInv(w) && !a.FinishEvent?
    ensures ProcessInv(w')
  {
    forall i | i in w'.workers
      ensures Holding(w', i) && FlightLive(w', i)
    {
      ProcessKeepsHolding(w, a, w', i);
      FlightStaysLive(w, a, w', i);
    }
  }

  lemma NextKeepsProcess(w: World, a: Action)
    requires Enabled(w, a) && OneProcess(w, a) && OutboxInv(w.tables) && FenceInv(w) && RevisionInv(w) && ProcessInv(w)
    ensures ProcessInv(Next(w, a))
  {
    if a.FinishEvent? {
      FinishEndsTheWorker(w, a);
    } else {
      NextIsFenceStep(w, a);
      NextMovesPhases(w, a);
      NextKeepsRevisions(w, a);
      forall id | id in w.tables.records
        ensures id in NextTables(w, a).records && NextTables(w, a).records[id].archived == w.tables.records[id].archived
      {
        OnlyFinishArchives(w, a, id);
      }
      WorkingKeepsProcess(w, a, Next(w, a));
    }
  }

  // ------------------------------------------------------------ the exact condition

  /** A deletion in flight stays a deletion unless the step races with it. */
  lemma DeletionStaysInFlight(w: World, a: Action, i: WorkerId)
    requires Enabled(w, a) && OneProcess(w, a) && RowsKeyed(w.tables) && ProcessInv(w) && !a.FinishEvent?
    requires (i in w.workers ==> FlightDeleting(w, i)) && !Races(w, a, i) && i in Next(w, a).workers
    ensures FlightDeleting(Next(w, a), i)
  {
    NextMovesPhases(w, a);
    var w' := Next(w, a);
    var phase := w'.workers[i];
    if InFlight(phase) && phase.event.action == Delete && phase.row.kind == Workspace {
      var id := phase.row.id;
      assert i in w.workers && !a.MissingRow?;
      if a == CheckRow(i, false) {
        assert w'.tables == w.tables;
        assert w.workers[i].Claimed? && phase == Checked(w.tables, w.workers[i].event, w.workers[i].token, false);
      } else {
        assert InFlight(w.workers[i]) && w.workers[i].row == phase.row && w.workers[i].event == phase.event;
        assert FlightDeleting(w, i);
        assert w.tables.records[id].kind == Workspace;
        if a.AdoptExistingRequest? && a.id == id {
          AdoptionOfKind(w, a);
        }
        NextLeavesDeleting(w, a, id);
      }
    }
  }

  lemma AdoptionOfKind(w: World, a: Action)
    requires Enabled(w, a) && RowsKeyed(w.tables) && a.AdoptExistingRequest? && a.id in w.tables.records
    ensures Decide(w, a).Some?
    ensures Decide(w, a).value.Commit? ==>
              && a.kind == w.tables.records[a.id].kind && Decide(w, a).value.row.id == a.id && Decide(w, a).value.row.syncState == Pending
  {
  }

  /** What the hierarchy theorems assume of a world; every run of one process provides it. */
  ghost predicate Grounded(w: World) {
    OutboxInv(w.tables) && FenceInv(w) && RevisionInv(w) && ProcessInv(w)
  }

  lemma NextKeepsGrounded(w: World, a: Action)
    requires Enabled(w, a) && OneProcess(w, a) && Grounded(w)
    ensures Grounded(Next(w, a))
  {
    NextKeepsOutbox(w, a);
    NextKeepsFence(w, a);
    NextKeepsRevisions(w, a);
    NextKeepsProcess(w, a);
  }

  /** One process: as long as its deletion is in flight, a row that is finished has no unarchived children and is not archived. */
  lemma NothingToOrphan(w: World, a: Action)
    requires Enabled(w, a) && Grounded(w) && HierarchyOk(w.tables)
    requires a.FinishEvent? ==> FlightDeleting(w, a.worker)
    ensures !Orphans(w, a)
  {
    if a.FinishEvent? && w.workers[a.worker].Projected? {
      assert FlightLive(w, a.worker);
      ChildrenAreAccepted(w.tables, w.workers[a.worker].row.id);
    }
  }

  lemma ChildrenAreAccepted(t: Tables, p: Id)
    requires HierarchyOk(t)
    ensures HasChildren(t, p) ==> Accepts(t, p)
  {
    if HasChildren(t, p) {
      var c :| c in t.records && !t.records[c].archived && t.records[c].parent == OfRecord(p);
      assert ParentOk(t, t.records[c]);
    }
  }

  lemma OneProcessIsLive(w: World)
    requires ProcessInv(w)
    ensures CopiesLive(w)
  {
    forall i | i in w.workers && InFlight(w.workers[i])
      ensures !w.workers[i].row.archived
    {
      assert FlightLive(w, i);
    }
  }

  lemma SafeStepKeepsHierarchy(w: World, a: Action)
    requires Enabled(w, a) && OneProcess(w, a) && Grounded(w) && HierarchyInv(w) && !AdoptionRace(w, a)
    ensures HierarchyInv(Next(w, a))
  {
    OneProcessIsLive(w);
    NothingToOrphan(w, a);
    TreeKeptIff(w, a);
    if a.FinishEvent? {
      FinishEndsTheWorker(w, a);
    } else {
      forall i | i in Next(w, a).workers
        ensures FlightDeleting(Next(w, a), i)
      {
        assert !Races(w, a, i);
        DeletionStaysInFlight(w, a, i);
      }
    }
  }

  lemma RaceBreaksFlight(w: World, a: Action)
    requires Enabled(w, a) && Grounded(w) && HierarchyInv(w) && AdoptionRace(w, a)
    ensures !HierarchyInv(Next(w, a))
  {
    var i :| Races(w, a, i);
    assert FlightLive(w, i) && FlightDeleting(w, i);
    AdoptionOfKind(w, a);
    var w' := Next(w, a);
    assert w'.tables == Write(w.tables, Decide(w, a).value) && w'.workers == w.workers;
    assert !FlightDeleting(w', i);
  }

  /** One process: the invariant that the tree is whole and every deletion in flight still a deletion is kept exactly by the steps that do not race. */
  lemma HierarchyKeptIff(w: World, a: Action)
    requires Enabled(w, a) && OneProcess(w, a) && Grounded(w) && HierarchyInv(w)
    ensures HierarchyInv(Next(w, a)) <==> !AdoptionRace(w, a)
  {
    if AdoptionRace(w, a) {
      RaceBreaksFlight(w, a);
    } else {
      SafeStepKeepsHierarchy(w, a);
    }
  }

  /** Refusing to adopt rows that are being deleted would rule the race out. */
  lemma AdoptingLiveRowsIsSafe(w: World, a: Action)
    requires Enabled(w, a) && Grounded(w) && HierarchyInv(w) && a.AdoptExistingRequest?
    requires a.id in w.tables.records && w.tables.records[a.id].syncState != Deleting
    ensures !AdoptionRace(w, a)
  {
    if AdoptionRace(w, a) {
      var i :| Races(w, a, i);
      assert FlightLive(w, i) && FlightDeleting(w, i);
      AdoptionOfKind(w, a);
      assert false;
    }
  }

  // -------------------------------------------------- what the race leads to

  /** A request to create an application under workspace `id` that nothing stands in the way of. */
  ghost predicate CreatesUnder(w: World, c: Action, id: Id) {
    && c.CreateRequest? && c.kind == Application && c.p.admin && c.input.workspaceId == Some(id) && Enabled(w, c)
    && c.input.name != "" && ValidDesired(Application, c.input.desired, false)
    && (c.p.userId, c.key) !in w.tables.opIndex
    && id in w.tables.records && EffectiveNamespace(w.tables.records[id].name, w.tables.records[id].desired).Success?
    && !KeyTaken(w.tables, Some(ApplicationKey(EffectiveNamespace(w.tables.records[id].name, w.tables.records[id].desired).value, c.input.name)), c.ids.record)
  }

  lemma CreationUnder(w: World, c: Action, id: Id)
    requires CreatesUnder(w, c, id) && w.tables.records[id].kind == Workspace && !w.tables.records[id].archived
    requires w.tables.records[id].syncState != Deleting && w.tables.records[id].state != Archived
    ensures Decide(w, c).Some? && Decide(w, c).value.Commit?
    ensures var r := Decide(w, c).value.row; r.id == c.ids.record && r.parent == OfRecord(id) && !r.archived
  {
  }

  /** Finishing the deletion of a row with an unarchived child breaks the tree. */
  lemma FinishOrphans(w: World, i: WorkerId, child: Id)
    requires RowsKeyed(w.tables) && EventsKeyed(w.tables) && CopiesAgree(w) && i in w.workers && Holding(w, i)
    requires w.workers[i].Projected? && !w.workers[i].failed && w.workers[i].event.action == Delete
    requires w.workers[i].row.id in w.tables.records
    requires w.tables.records[w.workers[i].row.id].desiredRevision == w.workers[i].row.desiredRevision
    requires child in w.tables.records && child != w.workers[i].row.id
    requires !w.tables.records[child].archived && w.tables.records[child].parent == OfRecord(w.workers[i].row.id)
    ensures !HierarchyOk(Next(w, FinishEvent(i)).tables)
  {
    var phase := w.workers[i];
    FinishWritesOneRow(w.tables, phase.event, phase.token, phase.row, false, w.now);
    var t' := Next(w, FinishEvent(i)).tables;
    assert t' == Finish(w.tables, phase.event, phase.token, phase.row, false, w.now);
    assert t'.records[phase.row.id].archived;
    assert !ParentOk(t', t'.records[child]);
  }

  /** A request leaves events, workers and every other row alone. */
  lemma RequestFrame(w: World, a: Action)
    requires Enabled(w, a) && OutboxInv(w.tables) && IsRequest(a) && Decide(w, a).Some? && Decide(w, a).value.Commit?
    ensures var w' := Next(w, a);
            && w'.workers == w.workers
            && w'.tables.records == w.tables.records[Decide(w, a).value.row.id := Decide(w, a).value.row]
            && (forall i :: Holding(w, i) ==> Holding(w', i))
  {
    RequestTouchesNothing(w, a);
    assert NextTables(w, a) == Write(w.tables, Decide(w, a).value);
  }

  lemma AdoptedRowShape(w: World, a: Action)
    requires Enabled(w, a) && RowsKeyed(w.tables) && a.AdoptExistingRequest? && Decide(w, a).value.Commit? && a.kind == Workspace
    ensures a.id in w.tables.records && w.tables.records[a.id].kind == Workspace
    ensures var r := Decide(w, a).value.row; var before := w.tables.records[a.id];
            && r.id == a.id && r.kind == Workspace && !r.archived && r.syncState == Pending && r.state == Adopting
            && r.desiredRevision == before.desiredRevision && r.name == before.name && r.desired == before.desired
  {
  }

  lemma AdoptThenCreate(w: World, a: Action, i: WorkerId, c: Action) returns (w1: World, w2: World)
    requires Enabled(w, a) && Grounded(w) && HierarchyInv(w) && AdoptionRace(w, a)
    requires i in w.workers && InFlight(w.workers[i]) && w.workers[i].event.action == Delete && w.workers[i].row.id == a.id
    requires CreatesUnder(Next(w, a), c, a.id)
    ensures w1 == Next(w, a) && Enabled(w1, c) && w2 == Next(w1, c)
    ensures w2.workers == w.workers && Holding(w2, i) && CopiesAgree(w2) && RowsKeyed(w2.tables) && EventsKeyed(w2.tables)
    ensures a.id in w2.tables.records && w2.tables.records[a.id].desiredRevision == w.workers[i].row.desiredRevision
    ensures c.ids.record in w2.tables.records && c.ids.record != a.id
    ensures !w2.tables.records[c.ids.record].archived && w2.tables.records[c.ids.record].parent == OfRecord(a.id)
  {
    assert FlightLive(w, i) && FlightDeleting(w, i) && Holding(w, i);
    AdoptedRowShape(w, a);
    RequestFrame(w, a);
    NextKeepsOutbox(w, a);
    NextKeepsFence(w, a);
    w1 := Next(w, a);
    CreationUnder(w1, c, a.id);
    RequestFrame(w1, c);
    NextKeepsOutbox(w1, c);
    NextKeepsFence(w1, c);
    w2 := Next(w1, c);
  }

  /** The worker reaches its finishing transaction with an Engine call that succeeds. */
  lemma CallThenFinish(w2: World, i: WorkerId, child: Id) returns (w3: World)
    requires RowsKeyed(w2.tables) && EventsKeyed(w2.tables) && CopiesAgree(w2) && i in w2.workers && Holding(w2, i)
    requires w2.workers[i].Ready? && w2.workers[i].event.action == Delete
    requires w2.workers[i].row.id in w2.tables.records
    requires w2.tables.records[w2.workers[i].row.id].desiredRevision == w2.workers[i].row.desiredRevision
    requires child in w2.tables.records && child != w2.workers[i].row.id
    requires !w2.tables.records[child].archived && w2.tables.records[child].parent == OfRecord(w2.workers[i].row.id)
    ensures Enabled(w2, CallEngine(i, false, true)) && w3 == Next(w2, CallEngine(i, false, true))
    ensures Enabled(w3, FinishEvent(i)) && !HierarchyOk(Next(w3, FinishEvent(i)).tables)
  {
    w3 := Next(w2, CallEngine(i, false, true));
    assert w3.tables == w2.tables && w3.workers == w2.workers[i := Projected(w2.workers[i].event, w2.workers[i].token, w2.workers[i].row, false)];
    FinishOrphans(w3, i, child);
  }

  /**
    From every race the broken tree is one application request `c` and the worker's
    own last steps away; no other action takes part.
  */
  lemma RaceOrphansApplication(w: World, a: Action, i: WorkerId, c: Action) returns (w1: World, w2: World, w3: World)
    requires Enabled(w, a) && Grounded(w) && HierarchyInv(w) && AdoptionRace(w, a)
    requires i in w.workers && InFlight(w.workers[i]) && w.workers[i].event.action == Delete && w.workers[i].row.id == a.id
    requires w.workers[i].Projected? ==> !w.workers[i].failed
    requires CreatesUnder(Next(w, a), c, a.id)
    ensures w1 == Next(w, a) && Enabled(w1, c) && w2 == Next(w1, c)
    ensures if w.workers[i].Ready? then Enabled(w2, CallEngine(i, false, true)) && w3 == Next(w2, CallEngine(i, false, true)) else w3 == w2
    ensures Enabled(w3, FinishEvent(i)) && !HierarchyOk(Next(w3, FinishEvent(i)).tables)
  {
    w1, w2 := AdoptThenCreate(w, a, i, c);
    if w.workers[i].Ready? {
      w3 := CallThenFinish(w2, i, c.ids.record);
    } else {
      w3 := w2;
      FinishOrphans(w2, i, c.ids.record);
    }
  }

  // ------------------------------------------------------------------ whole runs

  ghost predicate OneProcessRun(ws: seq<World>, acts: seq<Action>) {
    && IsRun(ws, acts) && Init(ws[0])
    && forall k: nat :: k < |acts| ==> OneProcess(ws[k], acts[k])
  }

  /** Some run of one process from the empty tables ends in this world. */
  ghost predicate ReachableAlone(w: World) {
    exists ws: seq<World>, acts: seq<Action> :: OneProcessRun(ws, acts) && ws[|acts|] == w
  }

  lemma ReachableAloneStep(w: World, a: Action)
    requires ReachableAlone(w) && Enabled(w, a) && OneProcess(w, a)
    ensures ReachableAlone(Next(w, a))
  {
    var ws, acts :| OneProcessRun(ws, acts) && ws[|acts|] == w;
    RunGoesOn(ws, acts, a);
    StaysAlone(ws, acts, a);
  }

  lemma StaysAlone(ws: seq<World>, acts: seq<Action>, a: Action)
    requires OneProcessRun(ws, acts) && Enabled(ws[|acts|], a) && OneProcess(ws[|acts|], a)
    requires IsRun(ws + [Next(ws[|acts|], a)], acts + [a])
    ensures OneProcessRun(ws + [Next(ws[|acts|], a)], acts + [a])
  {
    var vs, bs := ws + [Next(ws[|acts|], a)], acts + [a];
    forall i: nat | i < |bs|
      ensures OneProcess(vs[i], bs[i])
    {
      assert i < |acts| ==> OneProcess(ws[i], acts[i]);
    }
  }

  ghost predicate RaceFree(ws: seq<World>, acts: seq<Action>)
    requires |ws| == |acts| + 1
  {
    forall k: nat :: k < |acts| ==> !AdoptionRace(ws[k], acts[k])
  }

  lemma {:induction false} RunIsGrounded(ws: seq<World>, acts: seq<Action>, k: nat)
    requires OneProcessRun(ws, acts) && k < |ws|
    ensures Grounded(ws[k])
  {
    if k > 0 {
      RunIsGrounded(ws, acts, k - 1);
      assert StepAt(ws, acts, k - 1) && OneProcess(ws[k - 1], acts[k - 1]);
      NextKeepsGrounded(ws[k - 1], acts[k - 1]);
    }
  }

  /**
    In every race-free run of one process, an unarchived application filed under a
    workspace has an unarchived workspace that is not being deleted; so a workspace
    in deletion has no unarchived applications, and applications are archived before
    their workspace.
  */
  lemma {:induction false} HierarchyOverRuns(ws: seq<World>, acts: seq<Action>, k: nat)
    requires OneProcessRun(ws, acts) && RaceFree(ws, acts) && k < |ws|
    ensures HierarchyInv(ws[k])
    ensures forall p, c | p in ws[k].tables.records && c in ws[k].tables.records && ws[k].tables.records[c].parent == OfRecord(p) ::
              ws[k].tables.records[p].archived || ws[k].tables.records[p].syncState == Deleting ==> ws[k].tables.records[c].archived
  {
    if k > 0 {
      HierarchyOverRuns(ws, acts, k - 1);
      RunIsGrounded(ws, acts, k - 1);
      assert StepAt(ws, acts, k - 1) && OneProcess(ws[k - 1], acts[k - 1]) && !AdoptionRace(ws[k - 1], acts[k - 1]);
      SafeStepKeepsHierarchy(ws[k - 1], acts[k - 1]);
    }
    forall p, c | p in ws[k].tables.records && c in ws[k].tables.records && ws[k].tables.records[c].parent == OfRecord(p)
                  && (ws[k].tables.records[p].archived || ws[k].tables.records[p].syncState == Deleting)
      ensures ws[k].tables.records[c].archived
    {
      assert ParentOk(ws[k].tables, ws[k].tables.records[c]);
    }
  }

  /** A deletion no longer in flight as such was raced: the adoption met it earlier in the run, on this worker's event and row. */
  lemma {:induction false} LostToRace(ws: seq<World>, acts: seq<Action>, k: nat, i: WorkerId) returns (j: nat)
    requires OneProcessRun(ws, acts) && k < |ws| && i in ws[k].workers && !FlightDeleting(ws[k], i)
    ensures j < k && Races(ws[j], acts[j], i)
    ensures ws[j].workers[i].event == ws[k].workers[i].event && ws[j].workers[i].row == ws[k].workers[i].row
  {
    assert k > 0;
    assert StepAt(ws, acts, k - 1) && OneProcess(ws[k - 1], acts[k - 1]);
    RunIsGrounded(ws, acts, k - 1);
    LostInStep(ws[k - 1], acts[k - 1], i);
    j := k - 1;
    if !FlightDeleting(ws[k - 1], i) {
      j := LostToRace(ws, acts, k - 1, i);
    }
  }

  lemma LostInStep(w: World, a: Action, i: WorkerId)
    requires Enabled(w, a) && OneProcess(w, a) && Grounded(w) && i in Next(w, a).workers && !FlightDeleting(Next(w, a), i)
    ensures i in w.workers && (Races(w, a, i) || !FlightDeleting(w, i))
    ensures w.workers[i].event == Next(w, a).workers[i].event && InFlight(w.workers[i]) && w.workers[i].row == Next(w, a).workers[i].row
  {
    NextMovesPhases(w, a);
    if a.FinishEvent? {
      FinishEndsTheWorker(w, a);
    }
    if (i in w.workers ==> FlightDeleting(w, i)) && !Races(w, a, i) {
      DeletionStaysInFlight(w, a, i);
    }
  }

  /** One process: behind every transaction that orphans there is an adoption that raced with this very deletion. */
  lemma OrphanComesFromRace(ws: seq<World>, acts: seq<Action>, k: nat) returns (j: nat)
    requires OneProcessRun(ws, acts) && k < |acts| && HierarchyOk(ws[k].tables) && Orphans(ws[k], acts[k])
    ensures j < k && Races(ws[j], acts[j], acts[k].worker)
    ensures ws[j].workers[acts[k].worker].event == ws[k].workers[acts[k].worker].event
    ensures acts[j].id == ws[k].workers[acts[k].worker].row.id
  {
    RunIsGrounded(ws, acts, k);
    assert StepAt(ws, acts, k);
    if FlightDeleting(ws[k], acts[k].worker) {
      NothingToOrphan(ws[k], acts[k]);
    }
    j := LostToRace(ws, acts, k, acts[k].worker);
  }

  lemma FinishKeepsArchive(w: World, i: WorkerId, id: Id)
    requires Enabled(w, FinishEvent(i)) && RowsKeyed(w.tables) && ProcessInv(w)
    requires id in w.tables.records && w.tables.records[id].archived
    ensures id in NextTables(w, FinishEvent(i)).records && NextTables(w, FinishEvent(i)).records[id].archived
  {
    var phase := w.workers[i];
    assert FlightLive(w, i);
    FinishWritesOneRow(w.tables, phase.event, phase.token, phase.row, phase.failed, w.now);
    assert NextTables(w, FinishEvent(i)) == Finish(w.tables, phase.event, phase.token, phase.row, phase.failed, w.now);
  }

  lemma StepKeepsArchive(w: World, a: Action, id: Id)
    requires Enabled(w, a) && RowsKeyed(w.tables) && ProcessInv(w) && id in w.tables.records && w.tables.records[id].archived
    ensures id in NextTables(w, a).records && NextTables(w, a).records[id].archived
  {
    if a.FinishEvent? {
      FinishKeepsArchive(w, a.worker, id);
    } else {
      OnlyFinishArchives(w, a, id);
    }
  }

  /** In every run of one process, races included, archiving is never undone. */
  lemma {:induction false} ArchivedForGood(ws: seq<World>, acts: seq<Action>, i: nat, j: nat, id: Id)
    requires OneProcessRun(ws, acts) && i <= j < |ws|
    requires id in ws[i].tables.records && ws[i].tables.records[id].archived
    ensures id in ws[j].tables.records && ws[j].tables.records[id].archived
    decreases j
  {
    if i < j {
      ArchivedForGood(ws, acts, i, j - 1, id);
      RunIsGrounded(ws, acts, j - 1);
      assert StepAt(ws, acts, j - 1);
      StepKeepsArchive(ws[j - 1], acts[j - 1], id);
    }
  }

  /** The row a worker's finishing transaction leaves behind, when its claim and revision still hold. */
  lemma FinishLeaves(w: World, i: WorkerId)
    requires RowsKeyed(w.tables) && i in w.workers && Holding(w, i) && w.workers[i].Projected? && w.workers[i].event.action == Delete
    requires w.workers[i].row.id in w.tables.records
    requires w.tables.records[w.workers[i].row.id].desiredRevision == w.workers[i].row.desiredRevision
    requires w.workers[i].failed ==> !KeyTaken(w.tables, w.workers[i].row.activeKey, w.workers[i].row.id)
    ensures var w' := Next(w, FinishEvent(i)); var id := w.workers[i].row.id;
            && w'.workers == w.workers - {i}
            && RowsKeyed(w'.tables) && id in w'.tables.records
            && w'.tables.records[id].archived == (if w.workers[i].failed then w.workers[i].row.archived else true)
            && w'.tables.records[id].desiredRevision == w.workers[i].row.desiredRevision
            && (forall other :: other != id ==> (other in w'.tables.records <==> other in w.tables.records))
            && (forall other :: other != id && other in w.tables.records ==> w'.tables.records[other] == w.tables.records[other])
  {
    var phase := w.workers[i];
    FinishWritesOneRow(w.tables, phase.event, phase.token, phase.row, phase.failed, w.now);
    assert Next(w, FinishEvent(i)).tables == Finish(w.tables, phase.event, phase.token, phase.row, phase.failed, w.now);
  }

  /** Settling one event leaves the claims on the others. */
  lemma FinishLeavesOthers(w: World, i: WorkerId, j: WorkerId)
    requires EventsKeyed(w.tables) && i in w.workers && j in w.workers && i != j && Holding(w, j) && w.workers[i].Projected?
    requires w.workers[i].event.id != w.workers[j].event.id
    ensures Holding(Next(w, FinishEvent(i)), j) && Next(w, FinishEvent(i)).workers[j] == w.workers[j]
  {
    var phase := w.workers[i];
    FinishTouchesOne(w.tables, phase.event, phase.token, phase.row, phase.failed, w.now);
    assert Next(w, FinishEvent(i)).tables == Finish(w.tables, phase.event, phase.token, phase.row, phase.failed, w.now);
    assert Next(w, FinishEvent(i)).workers == w.workers - {i};
  }

  /**
    With two workers archiving can be undone: both hold a delete event of one row and
    are past the check; one succeeds, the other then records its failure.
  */
  lemma TwoWorkersUndoArchive(w: World, i: WorkerId, j: WorkerId)
    requires RowsKeyed(w.tables) && EventsKeyed(w.tables) && KeysDistinct(w.tables)
    requires i in w.workers && j in w.workers && i != j && Holding(w, i) && Holding(w, j)
    requires w.workers[i].event.id != w.workers[j].event.id
    requires w.workers[i].Projected? && !w.workers[i].failed && w.workers[i].event.action == Delete
    requires w.workers[j].Projected? && w.workers[j].failed && w.workers[j].event.action == Delete
    requires w.workers[i].row == w.workers[j].row && !w.workers[i].row.archived
    requires w.workers[i].row.id in w.tables.records && w.tables.records[w.workers[i].row.id] == w.workers[i].row
    ensures var id := w.workers[i].row.id; var w1 := Next(w, FinishEvent(i));
            && id in w1.tables.records && w1.tables.records[id].archived
            && Enabled(w1, FinishEvent(j))
            && var w2 := Next(w1, FinishEvent(j));
               id in w2.tables.records && !w2.tables.records[id].archived
  {
    FinishLeaves(w, i);
    FinishLeavesOthers(w, i, j);
    FinishLeaves(Next(w, FinishEvent(i)), j);
  }

  // --------------------------------------------------------- the race is reachable

  const RACE_ADMIN := Principal(1, "", true)
  const RACE_ROW := Record(0, Workspace, "team", "ns", NoParent, "", "", Some(WorkspaceKey("ns")),
                           DesiredState(Some(WorkspaceDesired("ns", "spec")), None), 1, 1, Synced, Engine, Unassigned, false, false, 0)
  const RACE_OPERATION := Operation(1, "k1", 1, "", Request(1, Workspace, DeleteVerb, Some(0), None), 0, Delete, OpPending)
  const RACE_EVENT := Event(1, 1, 0, Delete, 1, 0, 0, false, None, 0)
  const RACE_CLAIMED := RACE_EVENT.(claim := Some(Claim(7, LEASE)))

  function RaceWorld(records: map<Id, Record>, event: Option<Event>, workers: map<WorkerId, Phase>, tokens: set<Token>): World {
    World(if event.None? then Tables(records, map[], map[], map[], map[])
          else Tables(records, map[1 := RACE_OPERATION], map[(1, "k1") := 1], map[1 := event.value], map[1 := 1]),
          map[], map["project" := "module"], workers, tokens, {}, 0)
  }

  const RACE_WORLDS: seq<World> :=
    [RaceWorld(map[], None, map[], {}),
     RaceWorld(map[0 := RACE_ROW], None, map[], {}),
     RaceWorld(map[0 := RACE_ROW.(syncState := Deleting)], Some(RACE_EVENT), map[], {}),
     RaceWorld(map[0 := RACE_ROW.(syncState := Deleting)], Some(RACE_CLAIMED), map[7 := Claimed(RACE_CLAIMED, 7)], {7}),
     RaceWorld(map[0 := RACE_ROW.(syncState := Deleting)], Some(RACE_CLAIMED), map[7 := Ready(RACE_CLAIMED, 7, RACE_ROW.(syncState := Deleting))], {7})]

  const RACE_ACTIONS: seq<Action> :=
    [Discover(RACE_ROW), DeleteRequest(RACE_ADMIN, 0, Workspace, "k1", Ids(1, 1, 1)), ClaimEvent(7, 7, 1), CheckRow(7, false)]

  lemma RaceDiscovers()
    ensures StepAt(RACE_WORLDS, RACE_ACTIONS, 0)
  {
  }

  lemma RaceDeletes()
    ensures StepAt(RACE_WORLDS, RACE_ACTIONS, 1)
  {
    var w := RACE_WORLDS[1];
    assert !HasChildren(w.tables, 0);
    assert Decide(w, RACE_ACTIONS[1]) == Some(Commit(RACE_ROW.(syncState := Deleting), RACE_OPERATION, RACE_EVENT));
    assert Next(w, RACE_ACTIONS[1]).tables == RACE_WORLDS[2].tables;
  }

  lemma RaceClaims()
    ensures StepAt(RACE_WORLDS, RACE_ACTIONS, 2)
  {
    assert Next(RACE_WORLDS[2], RACE_ACTIONS[2]).tables == RACE_WORLDS[3].tables;
  }

  lemma RaceChecks()
    ensures StepAt(RACE_WORLDS, RACE_ACTIONS, 3)
  {
    assert Next(RACE_WORLDS[3], RACE_ACTIONS[3]).workers == RACE_WORLDS[4].workers;
  }

  const RACE_ADOPTION := AdoptExistingRequest(RACE_ADMIN, 0, Workspace, ResourceInput("", "project", None, DesiredState(None, None)), "k2", Ids(2, 2, 2))

  lemma RaceAdopts()
    ensures Enabled(RACE_WORLDS[4], RACE_ADOPTION) && AdoptionRace(RACE_WORLDS[4], RACE_ADOPTION)
  {
    var w := RACE_WORLDS[4];
    assert Decide(w, RACE_ADOPTION).value.Commit?;
    assert Races(w, RACE_ADOPTION, 7);
  }

  lemma FourSteps(ws: seq<World>, acts: seq<Action>)
    requires |ws| == 5 && |acts| == 4 && Init(ws[0])
    requires StepAt(ws, acts, 0) && StepAt(ws, acts, 1) && StepAt(ws, acts, 2) && StepAt(ws, acts, 3)
    requires OneProcess(ws[0], acts[0]) && OneProcess(ws[1], acts[1]) && OneProcess(ws[2], acts[2]) && OneProcess(ws[3], acts[3])
    ensures OneProcessRun(ws, acts)
  {
    forall k: nat | k < |acts|
      ensures StepAt(ws, acts, k) && OneProcess(ws[k], acts[k])
    {
      assert k == 0 || k == 1 || k == 2 || k == 3;
    }
  }

  /**
    The race can be reached by one process: a workspace is discovered and deleted, the
    worker passes the row check, and an administrator adopts the workspace.
  */
  lemma RaceIsReachable()
    ensures OneProcessRun(RACE_WORLDS, RACE_ACTIONS)
    ensures Enabled(RACE_WORLDS[4], RACE_ADOPTION) && AdoptionRace(RACE_WORLDS[4], RACE_ADOPTION)
  {
    RaceAdopts();
    RaceDiscovers();
    RaceDeletes();
    RaceClaims();
    RaceChecks();
    FourSteps(RACE_WORLDS, RACE_ACTIONS);
  }

  // ----------------------------------------------------------- the orphan is reachable

  const RACE_CHILD := CreateRequest(RACE_ADMIN, Application, ResourceInput("app", "", Some(0), DesiredState(None, Some(ApplicationDesired("spec", [], true)))), "k3", Ids(3, 3, 3))

  const RACE_ADOPTED := RACE_ROW.(syncState := Pending, state := Adopting, source := Api, parent := OfProject("project"), project := "project", moduleId := "module")

  lemma RaceAdoption()
    ensures Decide(RACE_WORLDS[4], RACE_ADOPTION) == Some(CommitWith(RACE_ADOPTED, "k2", 1, Request(1, Workspace, AdoptExistingVerb, Some(0), Some(RACE_ADOPTION.input)), EventAction.AdoptExisting, 1, RACE_ADOPTION.ids, 0))
    ensures Enabled(RACE_WORLDS[4], RACE_ADOPTION)
  {
  }

  lemma RaceChildFits()
    ensures CreatesUnder(Next(RACE_WORLDS[4], RACE_ADOPTION), RACE_CHILD, 0)
  {
    RaceAdoption();
    var w, v := Next(RACE_WORLDS[4], RACE_ADOPTION), Decide(RACE_WORLDS[4], RACE_ADOPTION).value;
    assert w.tables == Write(RACE_WORLDS[4].tables, v);
    assert w.tables.records == map[0 := RACE_ADOPTED];
  }

  /**
    One process can end up with an unarchived application under an archived workspace: the
    eight steps are discovery, deletion, claim, check, adoption, the creation of the
    application, the Engine call and the finish.
  */
  lemma OrphanIsReachable() returns (w: World)
    ensures ReachableAlone(w) && !HierarchyOk(w.tables)
  {
    RaceIsReachable();
    var start, a, c := RACE_WORLDS[4], RACE_ADOPTION, RACE_CHILD;
    assert ReachableAlone(start);
    RunIsGrounded(RACE_WORLDS, RACE_ACTIONS, 4);
    RaceStartsSound();
    RaceChildFits();
    var w1, w2, w3 := RaceOrphansApplication(start, a, 7, c);
    ReachableAloneStep(start, a);
    ReachableAloneStep(w1, c);
    if start.workers[7].Ready? {
      ReachableAloneStep(w2, CallEngine(7, false, true));
    }
    ReachableAloneStep(w3, FinishEvent(7));
    w := Next(w3, FinishEvent(7));
  }

  lemma RaceStartsSound()
    ensures HierarchyInv(RACE_WORLDS[4])
  {
  }
}
