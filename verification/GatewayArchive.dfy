/**
  Archiving with any number of workers. Nothing but a finishing transaction touches
  the archive mark, and its row update is guarded by the claim and the revision alone;
  so a worker that read the row before it was archived can write it back, unless another
  row has taken the key by then.
*/
module GatewayArchive {
  import opened GatewayModel
  import opened GatewaySteps
  import opened GatewayOutbox
  import opened GatewayFencing
  import opened GatewayRevisions
  import opened GatewayHierarchy

  predicate ArchivedIn(w: World, id: Id) {
    id in w.tables.records && w.tables.records[id].archived
  }

  /**
    The finish, under a valid claim and at the row's revision, of an adoption or of a
    failed deletion whose copy of the row was read before it was archived and names a
    key that no other row has taken since.
  */
  ghost predicate Unarchives(w: World, a: Action, id: Id) {
    && a.FinishEvent? && Holding(w, a.worker) && w.workers[a.worker].Projected?
    && var phase := w.workers[a.worker];
       && phase.row.id == id && !phase.row.archived
       && id in w.tables.records && w.tables.records[id].desiredRevision == phase.row.desiredRevision
       && (phase.event.action == Adopt || (phase.event.action == Delete && phase.failed))
       && !KeyTaken(w.tables, phase.row.activeKey, id)
  }

  lemma FinishUnarchivesIff(w: World, a: Action, id: Id)
    requires Enabled(w, a) && a.FinishEvent? && RowsKeyed(w.tables) && ArchivedIn(w, id)
    ensures id in NextTables(w, a).records
    ensures !NextTables(w, a).records[id].archived <==> Unarchives(w, a, id)
  {
    var phase := w.workers[a.worker];
    FinishWritesOneRow(w.tables, phase.event, phase.token, phase.row, phase.failed, w.now);
    assert NextTables(w, a) == Finish(w.tables, phase.event, phase.token, phase.row, phase.failed, w.now);
  }

  /** Any number of workers: a step takes the archive mark off a row exactly when it is such a finish. */
  lemma ArchiveKeptIff(w: World, a: Action, id: Id)
    requires Enabled(w, a) && RowsKeyed(w.tables) && ArchivedIn(w, id)
    ensures ArchivedIn(Next(w, a), id) <==> !Unarchives(w, a, id)
  {
    if a.FinishEvent? {
      FinishUnarchivesIff(w, a, id);
    } else {
      OnlyFinishArchives(w, a, id);
    }
  }

  lemma RunStepKeepsArchiveIff(ws: seq<World>, acts: seq<Action>, k: nat, id: Id)
    requires IsRun(ws, acts) && Init(ws[0]) && k < |acts| && ArchivedIn(ws[k], id)
    ensures ArchivedIn(ws[k + 1], id) <==> !Unarchives(ws[k], acts[k], id)
  {
    RunKeepsRevisions(ws, acts, k);
    assert StepAt(ws, acts, k);
    ArchiveKeptIff(ws[k], acts[k], id);
  }

  /** In every run, with any number of workers, a row stays archived exactly as long as no such finish happens. */
  lemma {:induction false} ArchivedUntilUndone(ws: seq<World>, acts: seq<Action>, i: nat, j: nat, id: Id)
    requires IsRun(ws, acts) && Init(ws[0]) && i <= j < |ws| && ArchivedIn(ws[i], id)
    ensures (forall k: nat :: i <= k <= j ==> ArchivedIn(ws[k], id)) <==> (forall k: nat :: i <= k < j ==> !Unarchives(ws[k], acts[k], id))
    decreases j
  {
    if i < j {
      ArchivedUntilUndone(ws, acts, i, j - 1, id);
      if ArchivedIn(ws[j - 1], id) {
        RunStepKeepsArchiveIff(ws, acts, j - 1, id);
      }
    }
  }

  /**
    Bringing an application back can break the tree: archived, it does not stop the deletion
    `d` of its workspace, and the finish that brings it back does not look at the workspace.
  */
  lemma RevivalOrphans(w: World, d: Action, i: WorkerId, id: Id)
    requires OutboxInv(w.tables) && ArchivedIn(w, id) && Enabled(w, FinishEvent(i)) && Unarchives(w, FinishEvent(i), id)
    requires Enabled(w, d) && d.DeleteRequest? && Decide(w, d).value.Commit? && w.tables.records[id].parent == OfRecord(d.id)
    ensures Enabled(Next(w, d), FinishEvent(i)) && Orphans(Next(w, d), FinishEvent(i))
  {
    RequestFrame(w, d);
    DeletionMarks(w, d);
    RevivedUnderDeletion(w, Next(w, d), i, id, Decide(w, d).value.row);
  }

  /** The same about any world that differs from the first one by a row that entered deletion. */
  lemma RevivedUnderDeletion(w: World, w': World, i: WorkerId, id: Id, row: Record)
    requires RowsKeyed(w.tables) && ArchivedIn(w, id) && Unarchives(w, FinishEvent(i), id) && w.tables.records[id].parent == OfRecord(row.id)
    requires row.id in w.tables.records && !w.tables.records[row.id].archived && row.syncState == Deleting
    requires row.activeKey == w.tables.records[row.id].activeKey
    requires w'.workers == w.workers && Holding(w', i) && w'.tables.records == w.tables.records[row.id := row]
    ensures Enabled(w', FinishEvent(i)) && Orphans(w', FinishEvent(i))
  {
    assert KeyTaken(w'.tables, w.workers[i].row.activeKey, id) ==> KeyTaken(w.tables, w.workers[i].row.activeKey, id);
  }

  lemma DeletionMarks(w: World, d: Action)
    requires Enabled(w, d) && RowsKeyed(w.tables) && d.DeleteRequest? && Decide(w, d).value.Commit?
    ensures d.id in w.tables.records && !w.tables.records[d.id].archived
    ensures Decide(w, d).value.row == w.tables.records[d.id].(syncState := Deleting, updatedAt := w.now)
  {
  }
}
