/**
  A row in deletion always has a delete event at its revision that somebody will
  still act on, with any number of workers. The single exception is an event that
  fails for the third time before the Engine is reached: such a failure settles
  the event without touching the row.
*/
module GatewayServed {
  import opened Prelude
  import opened GatewayModel
  import opened GatewaySteps
  import opened GatewayOutbox
  import opened GatewayFencing
  import opened GatewayRevisions
  import opened GatewayHierarchy

  /** Event `e` asks for the deletion of row `id` at its present revision and nobody is discarding it. */
  ghost predicate Serves(w: World, id: Id, e: Id) {
    && id in w.tables.records && e in w.tables.events
    && !w.tables.events[e].processed && w.tables.events[e].action == Delete && w.tables.events[e].resourceId == id
    && w.tables.events[e].desiredRevision == w.tables.records[id].desiredRevision
    && (forall i :: i in w.workers && w.workers[i].Discarding? && w.workers[i].event.id == e ==> !Holding(w, i))
  }

  ghost predicate InDeletion(w: World, id: Id) {
    id in w.tables.records && w.tables.records[id].syncState == Deleting && !w.tables.records[id].archived
  }

  ghost predicate Served(w: World) {
    forall id :: InDeletion(w, id) ==> exists e :: Serves(w, id, e)
  }

  /** A worker past the row check of a delete event holds the row of that event at its revision. */
  ghost predicate FlightMatches(w: World) {
    forall i :: i in w.workers && InFlight(w.workers[i]) && w.workers[i].event.action == Delete ==>
      w.workers[i].row.id == w.workers[i].event.resourceId && w.workers[i].row.desiredRevision == w.workers[i].event.desiredRevision
  }

  lemma NextKeepsMatches(w: World, a: Action)
    requires Enabled(w, a) && RowsKeyed(w.tables) && FlightMatches(w)
    ensures FlightMatches(Next(w, a))
  {
    NextMovesPhases(w, a);
    var w' := Next(w, a);
    forall i | i in w'.workers && InFlight(w'.workers[i]) && w'.workers[i].event.action == Delete
      ensures w'.workers[i].row.id == w'.workers[i].event.resourceId && w'.workers[i].row.desiredRevision == w'.workers[i].event.desiredRevision
    {
      if a == CheckRow(i, false) && i in w.workers && w'.workers[i] == Checked(w.tables, w.workers[i].event, w.workers[i].token, false) {
        assert MayProject(w.tables.records[w.workers[i].event.resourceId], w.workers[i].event);
      }
    }
  }

  /** The third failure of an event before the Engine is reached. */
  ghost predicate Exhausts(w: World, a: Action) {
    a.FailClaim? && Holding(w, a.worker) && w.tables.events[w.workers[a.worker].event.id].attempts + 1 >= MAX_OUTBOX_ATTEMPTS
  }

  /** ... of the only event that serves some row in deletion. */
  ghost predicate Strands(w: World, a: Action) {
    && Exhausts(w, a)
    && exists id :: InDeletion(w, id) && forall e :: Serves(w, id, e) ==> e == w.workers[a.worker].event.id
  }

  // ------------------------------------------------------ rows entering deletion

  /** A row newly in deletion was put there by a delete request, with its own event. */
  ghost predicate FreshDeletion(w: World, a: Action, id: Id) {
    && IsRequest(a) && Decide(w, a).Some? && Decide(w, a).value.Commit?
    && var v := Decide(w, a).value;
       && v.row.id == id && v.event.action == Delete && v.event.resourceId == id && v.event.desiredRevision == v.row.desiredRevision
       && v.event.id !in w.tables.events
  }

  lemma AdoptedRowsArePending(w: World, a: Action)
    requires Enabled(w, a) && (a.CreateRequest? || a.AdoptClusterRequest? || a.AdoptExistingRequest?) && Decide(w, a).value.Commit?
    ensures Decide(w, a).value.row.syncState == Pending
  {
  }

  lemma UpdatedRowsArePending(w: World, a: Action)
    requires Enabled(w, a) && a.UpdateRequest? && Decide(w, a).value.Commit?
    ensures Decide(w, a).value.row.syncState == Pending
  {
  }

  lemma DeleteIsFresh(w: World, a: Action, id: Id)
    requires Enabled(w, a) && a.DeleteRequest? && RowsKeyed(w.tables) && Decide(w, a).value.Commit? && Decide(w, a).value.row.id == id
    ensures FreshDeletion(w, a, id)
  {
  }

  lemma RequestEntersDeletion(w: World, a: Action, id: Id)
    requires Enabled(w, a) && OutboxInv(w.tables) && IsRequest(a) && Decide(w, a).Some? && Decide(w, a).value.Commit?
    requires Decide(w, a).value.row.id == id && Decide(w, a).value.row.syncState == Deleting
    ensures FreshDeletion(w, a, id) || (id in w.tables.records && Decide(w, a).value.row == w.tables.records[id])
  {
    if a.UpdateRequest? {
      UpdatedRowsArePending(w, a);
    } else if a.DeleteRequest? {
      DeleteIsFresh(w, a, id);
    } else if !a.RepairRow? {
      AdoptedRowsArePending(w, a);
    }
  }

  lemma RequestDeletion(w: World, a: Action, id: Id)
    requires Enabled(w, a) && OutboxInv(w.tables) && IsRequest(a) && InDeletion(Next(w, a), id)
    ensures FreshDeletion(w, a, id) || (id in w.tables.records && NextTables(w, a).records[id] == w.tables.records[id])
  {
    if Decide(w, a).Some? && Decide(w, a).value.Commit? && Decide(w, a).value.row.id == id {
      RequestEntersDeletion(w, a, id);
    }
  }

  lemma BackgroundDeletion(w: World, a: Action, id: Id)
    requires Enabled(w, a) && RowsKeyed(w.tables) && !IsRequest(a)
    requires id in BackgroundTables(w, a).records && BackgroundTables(w, a).records[id].syncState == Deleting
    ensures id in w.tables.records && BackgroundTables(w, a).records[id] == w.tables.records[id]
  {
    var t' := BackgroundTables(w, a);
    if a.FinishEvent? {
      var phase := w.workers[a.worker];
      FinishWritesOneRow(w.tables, phase.event, phase.token, phase.row, phase.failed, w.now);
    } else if !a.MissingRow? && !a.Discover? {
      assert t'.records == w.tables.records;
    }
  }

  // ----------------------------------------------------------- one event settled

  /** Finishing a delete event that still serves its row takes the row out of deletion, or is rolled back. */
  lemma FinishedRowLeavesDeletion(w: World, a: Action, id: Id)
    requires Enabled(w, a) && a.FinishEvent? && Holding(w, a.worker) && RowsKeyed(w.tables) && FlightMatches(w) && CopiesAgree(w)
    requires Serves(w, id, w.workers[a.worker].event.id)
    ensures !InDeletion(Next(w, a), id) || NextTables(w, a) == w.tables
  {
    var phase := w.workers[a.worker];
    assert phase.row.id == id;
    FinishWritesOneRow(w.tables, phase.event, phase.token, phase.row, phase.failed, w.now);
    assert NextTables(w, a) == Finish(w.tables, phase.event, phase.token, phase.row, phase.failed, w.now);
  }

  /** Failing a claim before the third time leaves the event unprocessed. */
  lemma FailKeepsOpen(w: World, a: Action)
    requires Enabled(w, a) && a.FailClaim? && Holding(w, a.worker) && EventsKeyed(w.tables) && !Exhausts(w, a)
    ensures var e := w.workers[a.worker].event.id; e in NextTables(w, a).events && !NextTables(w, a).events[e].processed
  {
  }

  lemma ExhaustionCloses(w: World, a: Action)
    requires Enabled(w, a) && Exhausts(w, a) && EventsKeyed(w.tables)
    ensures var e := w.workers[a.worker].event.id; e in NextTables(w, a).events && NextTables(w, a).events[e].processed
    ensures NextTables(w, a).records == w.tables.records
  {
  }

  // ---------------------------------------------------------------- preservation

  /** A worker that begins to discard an event found that it serves no row. */
  ghost predicate DiscardsStart(w: World, a: Action, w': World) {
    forall i, id :: i in w'.workers && w'.workers[i].Discarding? && InDeletion(w, id) && Serves(w, id, w'.workers[i].event.id) ==>
      i in w.workers && w.workers[i] == w'.workers[i]
  }

  lemma NextStartsDiscards(w: World, a: Action)
    requires Enabled(w, a) && CopiesAgree(w)
    ensures DiscardsStart(w, a, Next(w, a))
  {
    var w' := Next(w, a);
    assert w'.workers == NextWorkers(w, a);
    if a.CheckRow? {
      var e := w.workers[a.worker].event;
      assert w'.workers[a.worker] == Checked(w.tables, e, w.workers[a.worker].token, a.unavailable);
    }
  }

  /** An event other than the one settled goes on serving a row that stays in deletion. */
  lemma ServerStays(w: World, a: Action, w': World, id: Id, e: Id)
    requires FenceStep(w, a, w') && FenceInv(w) && DiscardsStart(w, a, w')
    requires InDeletion(w, id) && InDeletion(w', id) && w'.tables.records[id] == w.tables.records[id]
    requires Serves(w, id, e) && !w'.tables.events[e].processed
    ensures Serves(w', id, e)
  {
    assert EventAdvances(w.tables.events[e], w'.tables.events[e]);
    forall i | i in w'.workers && w'.workers[i].Discarding? && w'.workers[i].event.id == e
      ensures !Holding(w', i)
    {
      assert i in w.workers && w.workers[i] == w'.workers[i] && !Holding(w, i);
      LostStaysLost(w, a, w', i);
    }
  }

  /** What the theorem needs of a world, for any number of workers. */
  ghost predicate ServiceInv(w: World) {
    OutboxInv(w.tables) && FenceInv(w) && FlightMatches(w)
  }

  /** A serving event whose row stays in deletion is processed by an exhausting failure only. */
  lemma ProcessedByExhaustion(w: World, a: Action, id: Id, e: Id)
    requires Enabled(w, a) && ServiceInv(w)
    requires Serves(w, id, e) && InDeletion(Next(w, a), id)
    ensures e in NextTables(w, a).events
    ensures NextTables(w, a).events[e].processed ==> Exhausts(w, a) && w.workers[a.worker].event.id == e
  {
    NextIsFenceStep(w, a);
    if Next(w, a).tables.events[e].processed {
      OnlyHoldersProcess(w, a, Next(w, a), e);
      if a.FinishEvent? {
        FinishedRowLeavesDeletion(w, a, id);
      } else if a.FailClaim? && !Exhausts(w, a) {
        FailKeepsOpen(w, a);
      }
    }
  }

  lemma FreshDeletionIsServed(w: World, a: Action, id: Id)
    requires Enabled(w, a) && OutboxInv(w.tables) && CopiesAgree(w) && FreshDeletion(w, a, id)
    ensures Serves(Next(w, a), id, Decide(w, a).value.event.id)
  {
    RequestsAreWellFormed(w, a);
    var v := Decide(w, a).value;
    assert NextTables(w, a) == Write(w.tables, v);
    assert Next(w, a).workers == w.workers;
  }

  /** Unless the step strands it, a row has a server that is not being exhausted. */
  lemma PickServer(w: World, a: Action, id: Id) returns (e: Id)
    requires Served(w) && !Strands(w, a) && InDeletion(w, id)
    ensures Serves(w, id, e) && (Exhausts(w, a) ==> e != w.workers[a.worker].event.id)
  {
    e :| Serves(w, id, e) && (Exhausts(w, a) ==> e != w.workers[a.worker].event.id);
  }

  lemma RowStaysServed(w: World, a: Action, id: Id, e: Id)
    requires Enabled(w, a) && ServiceInv(w) && Serves(w, id, e) && (Exhausts(w, a) ==> e != w.workers[a.worker].event.id)
    requires InDeletion(Next(w, a), id) && InDeletion(w, id) && NextTables(w, a).records[id] == w.tables.records[id]
    ensures Serves(Next(w, a), id, e)
  {
    ProcessedByExhaustion(w, a, id, e);
    ServerSurvives(w, a, id, e);
  }

  lemma ServerSurvives(w: World, a: Action, id: Id, e: Id)
    requires Enabled(w, a) && ServiceInv(w) && Serves(w, id, e)
    requires InDeletion(Next(w, a), id) && InDeletion(w, id) && NextTables(w, a).records[id] == w.tables.records[id]
    requires e in NextTables(w, a).events && !NextTables(w, a).events[e].processed
    ensures Serves(Next(w, a), id, e)
  {
    NextIsFenceStep(w, a);
    NextStartsDiscards(w, a);
    ServerStays(w, a, Next(w, a), id, e);
  }

  lemma UnlessStrandedServed(w: World, a: Action)
    requires Enabled(w, a) && ServiceInv(w) && Served(w) && !Strands(w, a)
    ensures Served(Next(w, a))
  {
    forall id | InDeletion(Next(w, a), id)
      ensures exists e :: Serves(Next(w, a), id, e)
    {
      if IsRequest(a) {
        RequestDeletion(w, a, id);
      } else {
        BackgroundDeletion(w, a, id);
      }
      if FreshDeletion(w, a, id) {
        FreshDeletionIsServed(w, a, id);
      } else {
        var e := PickServer(w, a, id);
        RowStaysServed(w, a, id, e);
      }
    }
  }

  /** A server after an exhausting failure was one before. */
  lemma ServerWas(w: World, a: Action, w': World, id: Id, e: Id)
    requires FenceStep(w, a, w') && FenceInv(w) && a.FailClaim?
    requires w'.tables.records == w.tables.records && w'.tables.events.Keys <= w.tables.events.Keys
    requires a.worker in w.workers && w'.workers == w.workers - {a.worker}
    requires e != w.workers[a.worker].event.id && Serves(w', id, e)
    ensures Serves(w, id, e)
  {
    assert w'.tables.events[e] == w.tables.events[e];
    forall i | i in w.workers && w.workers[i].Discarding? && w.workers[i].event.id == e
      ensures !Holding(w, i)
    {
      assert i in w'.workers && w'.workers[i] == w.workers[i];
    }
  }

  /** No other event takes over from the one that exhausted its attempts. */
  lemma NobodyTakesOver(w: World, a: Action, id: Id, e: Id)
    requires Enabled(w, a) && ServiceInv(w) && Exhausts(w, a) && Serves(Next(w, a), id, e)
    ensures e != w.workers[a.worker].event.id && Serves(w, id, e)
  {
    ExhaustionCloses(w, a);
    NextIsFenceStep(w, a);
    BackgroundAddsNoEvent(w, a);
    assert Next(w, a).workers == NextWorkers(w, a);
    ServerWas(w, a, Next(w, a), id, e);
  }

  lemma StrandedRowIsUnserved(w: World, a: Action, id: Id)
    requires Enabled(w, a) && ServiceInv(w) && Exhausts(w, a) && InDeletion(w, id)
    requires forall e :: Serves(w, id, e) ==> e == w.workers[a.worker].event.id
    ensures InDeletion(Next(w, a), id) && forall e :: !Serves(Next(w, a), id, e)
  {
    ExhaustionCloses(w, a);
    var w' := Next(w, a);
    forall e
      ensures !Serves(w', id, e)
    {
      if Serves(w', id, e) {
        NobodyTakesOver(w, a, id, e);
      }
    }
  }

  lemma StrandedIsUnserved(w: World, a: Action)
    requires Enabled(w, a) && ServiceInv(w) && Strands(w, a)
    ensures !Served(Next(w, a))
  {
    var id :| InDeletion(w, id) && forall e :: Serves(w, id, e) ==> e == w.workers[a.worker].event.id;
    StrandedRowIsUnserved(w, a, id);
    UnservedBreaks(Next(w, a), id);
  }

  lemma UnservedBreaks(w: World, id: Id)
    requires InDeletion(w, id) && forall e :: !Serves(w, id, e)
    ensures !Served(w)
  {
  }

  /** One step keeps every deletion served exactly when it does not strand one. */
  lemma ServedKeptIff(w: World, a: Action)
    requires Enabled(w, a) && ServiceInv(w) && Served(w)
    ensures Served(Next(w, a)) <==> !Strands(w, a)
  {
    if Strands(w, a) {
      StrandedIsUnserved(w, a);
    } else {
      UnlessStrandedServed(w, a);
    }
  }

  /** Nothing asked of a row in deletion gets through: no update and no new delete request; and the repair loop passes it by. */
  lemma DeletionRefusesRequests(w: World, id: Id, update: Action, delete: Action)
    requires InDeletion(w, id) && RowsKeyed(w.tables)
    requires update.UpdateRequest? && update.copy == w.tables.records[id]
    requires delete.DeleteRequest? && delete.id == id
    ensures Decide(w, update) == Some(Reject(NotFound))
    ensures Decide(w, delete).Some? && !Decide(w, delete).value.Commit?
    ensures !Repairable(w.tables.records[id])
  {
  }

  lemma NextKeepsService(w: World, a: Action)
    requires Enabled(w, a) && ServiceInv(w)
    ensures ServiceInv(Next(w, a))
  {
    NextKeepsOutbox(w, a);
    NextKeepsFence(w, a);
    NextKeepsMatches(w, a);
  }

  /** Along every run, with any number of workers, deletions stay served while no step strands one. */
  lemma {:induction false} ServedOverRuns(ws: seq<World>, acts: seq<Action>, k: nat)
    requires IsRun(ws, acts) && Init(ws[0]) && k < |ws|
    requires forall i: nat :: i < k ==> !Strands(ws[i], acts[i])
    ensures ServiceInv(ws[k]) && Served(ws[k])
  {
    if k > 0 {
      ServedOverRuns(ws, acts, k - 1);
      assert StepAt(ws, acts, k - 1);
      NextKeepsService(ws[k - 1], acts[k - 1]);
      ServedKeptIff(ws[k - 1], acts[k - 1]);
    }
  }

  // --------------------------------------------------------- how a row gets out again

  /** A row in deletion that no event serves. */
  ghost predicate Unserved(w: World, id: Id) {
    InDeletion(w, id) && forall e :: !Serves(w, id, e)
  }

  /**
    The ways out of deletion that need no delete event: a committed adoption of the row,
    the missing-object write from a copy read before the deletion, the finish of an
    adoption event claimed before it.
  */
  ghost predicate Frees(w: World, a: Action, id: Id)
    requires id in w.tables.records
  {
    || ((a.AdoptExistingRequest? || a.AdoptClusterRequest?) && a.id == id && Decide(w, a).Some? && Decide(w, a).value.Commit?)
    || (a.MissingRow? && a.copy.id == id && a.copy.syncState != Deleting && a.copy.desiredRevision == w.tables.records[id].desiredRevision)
    || (a.FinishEvent? && Holding(w, a.worker) && w.workers[a.worker].Projected? && w.workers[a.worker].event.action == Adopt
        && w.workers[a.worker].row.id == id && w.workers[a.worker].row.desiredRevision == w.tables.records[id].desiredRevision
        && !KeyTaken(w.tables, w.workers[a.worker].row.activeKey, id))
  }

  lemma AdoptionCommits(w: World, a: Action)
    requires Enabled(w, a) && RowsKeyed(w.tables) && (a.AdoptExistingRequest? || a.AdoptClusterRequest?) && Decide(w, a).value.Commit?
    ensures Decide(w, a).value.row.id == a.id && Decide(w, a).value.row.syncState == Pending
  {
  }

  lemma UpdateSparesDeletion(w: World, a: Action, id: Id)
    requires Enabled(w, a) && a.UpdateRequest? && RowsKeyed(w.tables) && InDeletion(w, id) && Decide(w, a).value.Commit?
    ensures Decide(w, a).value.row.id != id
  {
  }

  lemma OthersSpareDeletion(w: World, a: Action, id: Id)
    requires Enabled(w, a) && (a.CreateRequest? || a.DeleteRequest? || a.RepairRow?) && RowsKeyed(w.tables) && InDeletion(w, id)
    requires Decide(w, a).Some? && Decide(w, a).value.Commit?
    ensures Decide(w, a).value.row.id != id || Decide(w, a).value.row == w.tables.records[id]
    ensures Decide(w, a).value.row.id == id ==> Decide(w, a).value.event.action == Apply
  {
  }

  lemma RequestFreesIff(w: World, a: Action, id: Id)
    requires Enabled(w, a) && IsRequest(a) && RowsKeyed(w.tables) && InDeletion(w, id)
    ensures InDeletion(Next(w, a), id) <==> !Frees(w, a, id)
    ensures InDeletion(Next(w, a), id) ==> Next(w, a).tables.records[id] == w.tables.records[id]
  {
    if Decide(w, a).Some? {
      assert Next(w, a).tables == Write(w.tables, Decide(w, a).value);
      if Decide(w, a).value.Commit? {
        if a.UpdateRequest? {
          UpdateSparesDeletion(w, a, id);
        } else if a.AdoptExistingRequest? || a.AdoptClusterRequest? {
          AdoptionCommits(w, a);
        } else {
          OthersSpareDeletion(w, a, id);
        }
      }
    }
  }

  /** A worker past the check of a delete event at the row's revision holds a serving event. */
  lemma ProjectedDeletionServes(w: World, i: WorkerId, id: Id)
    requires ServiceInv(w) && Holding(w, i) && w.workers[i].Projected? && w.workers[i].event.action == Delete
    requires w.workers[i].row.id == id && id in w.tables.records && w.workers[i].row.desiredRevision == w.tables.records[id].desiredRevision
    ensures Serves(w, id, w.workers[i].event.id)
  {
    forall j | j in w.workers && w.workers[j].Discarding? && w.workers[j].event.id == w.workers[i].event.id
      ensures !Holding(w, j)
    {
      if Holding(w, j) {
        OneHolder(w, i, j);
      }
    }
  }

  lemma FinishWrites(w: World, a: Action, id: Id)
    requires Enabled(w, a) && a.FinishEvent? && RowsKeyed(w.tables) && id in w.tables.records
    ensures var phase := w.workers[a.worker]; var records := NextTables(w, a).records;
            && id in records
            && (!(FinishLands(w.tables, phase.event, phase.token, phase.row, phase.failed) && phase.row.id == id) ==> records[id] == w.tables.records[id])
            && (FinishLands(w.tables, phase.event, phase.token, phase.row, phase.failed) && phase.row.id == id ==> records[id].syncState != Deleting)
  {
    var phase := w.workers[a.worker];
    FinishWritesOneRow(w.tables, phase.event, phase.token, phase.row, phase.failed, w.now);
    assert NextTables(w, a) == Finish(w.tables, phase.event, phase.token, phase.row, phase.failed, w.now);
    if FinishLands(w.tables, phase.event, phase.token, phase.row, phase.failed) {
      FinishedIsNotDeleting(w.tables.records[phase.row.id], phase.row, phase.event, phase.failed, w.tables.events[phase.event.id].attempts, w.now);
    }
  }

  /** No finish leaves its row in deletion. */
  lemma FinishedIsNotDeleting(current: Record, copy: Record, e: Event, failed: bool, attempts: nat, now: Time)
    ensures FinishedRow(current, copy, e, failed, attempts, now).syncState != Deleting
  {
  }

  lemma FinishFreesIff(w: World, a: Action, id: Id)
    requires Enabled(w, a) && a.FinishEvent? && ServiceInv(w) && Unserved(w, id)
    ensures InDeletion(Next(w, a), id) <==> !Frees(w, a, id)
    ensures InDeletion(Next(w, a), id) ==> Next(w, a).tables.records[id] == w.tables.records[id]
  {
    FinishWrites(w, a, id);
    OnlyAdoptionsFinish(w, a.worker, id);
  }

  /** The finish that may write an unserved row in deletion is that of an adoption. */
  lemma OnlyAdoptionsFinish(w: World, i: WorkerId, id: Id)
    requires ServiceInv(w) && Unserved(w, id) && i in w.workers && w.workers[i].Projected?
    ensures w.workers[i].row.id == id ==>
              (FinishLands(w.tables, w.workers[i].event, w.workers[i].token, w.workers[i].row, w.workers[i].failed) <==>
                 Holding(w, i) && w.workers[i].event.action == Adopt && w.workers[i].row.desiredRevision == w.tables.records[id].desiredRevision
                 && !KeyTaken(w.tables, w.workers[i].row.activeKey, id))
  {
    var phase := w.workers[i];
    if Holding(w, i) && phase.row.id == id && phase.row.desiredRevision == w.tables.records[id].desiredRevision {
      assert phase.event.action != Delete by {
        if phase.event.action == Delete {
          ProjectedDeletionServes(w, i, id);
        }
      }
    }
  }

  lemma MissingFreesIff(w: World, a: Action, id: Id)
    requires Enabled(w, a) && a.MissingRow? && RowsKeyed(w.tables) && InDeletion(w, id)
    ensures InDeletion(Next(w, a), id) <==> !Frees(w, a, id)
    ensures InDeletion(Next(w, a), id) ==> Next(w, a).tables.records[id] == w.tables.records[id]
  {
    assert Next(w, a).tables == MarkMissing(w.tables, a.copy, w.now);
  }

  lemma OtherStepsSpareRows(w: World, a: Action, id: Id)
    requires Enabled(w, a) && !IsRequest(a) && !a.FinishEvent? && !a.MissingRow? && id in w.tables.records
    ensures id in NextTables(w, a).records && NextTables(w, a).records[id] == w.tables.records[id]
  {
    assert !a.Discover? ==> BackgroundTables(w, a).records == w.tables.records;
  }

  /** Any number of workers: an unserved row leaves deletion exactly by one of these ways. */
  lemma LeavesDeletionIff(w: World, a: Action, id: Id)
    requires Enabled(w, a) && ServiceInv(w) && Unserved(w, id)
    ensures InDeletion(Next(w, a), id) <==> !Frees(w, a, id)
    ensures InDeletion(Next(w, a), id) ==> Next(w, a).tables.records[id] == w.tables.records[id]
  {
    if IsRequest(a) {
      RequestFreesIff(w, a, id);
    } else if a.FinishEvent? {
      FinishFreesIff(w, a, id);
    } else if a.MissingRow? {
      MissingFreesIff(w, a, id);
    } else {
      OtherStepsSpareRows(w, a, id);
    }
  }

  /** An unprocessed delete event about the row at its present revision, even one being discarded. */
  predicate OpenDeletion(t: Tables, id: Id, e: Id) {
    && id in t.records && e in t.events && !t.events[e].processed
    && t.events[e].action == Delete && t.events[e].resourceId == id && t.events[e].desiredRevision == t.records[id].desiredRevision
  }

  /** A row in deletion without any event left to finish it. */
  ghost predicate Abandoned(w: World, id: Id) {
    InDeletion(w, id) && forall e :: !OpenDeletion(w.tables, id, e)
  }

  /** No request adds a delete event for a row in deletion. */
  lemma NoNewDeletion(w: World, a: Action, id: Id, e: Id)
    requires Enabled(w, a) && ServiceInv(w) && InDeletion(w, id)
    requires e in Next(w, a).tables.events && e !in w.tables.events
    ensures !(Next(w, a).tables.events[e].action == Delete && Next(w, a).tables.events[e].resourceId == id)
  {
    if !IsRequest(a) {
      BackgroundAddsNoEvent(w, a);
    } else if Decide(w, a).Some? && Decide(w, a).value.Commit? {
      RequestsAreWellFormed(w, a);
      assert Next(w, a).tables == Write(w.tables, Decide(w, a).value);
      if a.UpdateRequest? {
        UpdateSparesDeletion(w, a, id);
      } else if a.AdoptExistingRequest? || a.AdoptClusterRequest? {
        AdoptionsDeleteNothing(w, a);
      } else {
        OthersSpareDeletion(w, a, id);
      }
    }
  }

  lemma AdoptionsDeleteNothing(w: World, a: Action)
    requires Enabled(w, a) && (a.AdoptExistingRequest? || a.AdoptClusterRequest?) && Decide(w, a).value.Commit?
    ensures Decide(w, a).value.event.action != Delete
  {
  }

  lemma StaysAbandoned(w: World, a: Action, id: Id, e: Id)
    requires Enabled(w, a) && ServiceInv(w) && Abandoned(w, id) && InDeletion(Next(w, a), id)
    requires Next(w, a).tables.records[id] == w.tables.records[id]
    ensures !OpenDeletion(Next(w, a).tables, id, e)
  {
    assert !OpenDeletion(w.tables, id, e);
    if e in w.tables.events {
      NextGrows(w, a);
      assert EventAdvances(w.tables.events[e], Next(w, a).tables.events[e]);
    } else if e in Next(w, a).tables.events {
      NoNewDeletion(w, a, id, e);
    }
  }

  /** Any number of workers: an abandoned row stays abandoned in deletion unless it is freed, and only then. */
  lemma AbandonedKeptIff(w: World, a: Action, id: Id)
    requires Enabled(w, a) && ServiceInv(w) && Abandoned(w, id)
    ensures Abandoned(Next(w, a), id) <==> !Frees(w, a, id)
  {
    assert forall e :: Serves(w, id, e) ==> OpenDeletion(w.tables, id, e);
    LeavesDeletionIff(w, a, id);
    if InDeletion(Next(w, a), id) {
      forall e
        ensures !OpenDeletion(Next(w, a).tables, id, e)
      {
        StaysAbandoned(w, a, id, e);
      }
    }
  }

  lemma {:induction false} RunIsServiceable(ws: seq<World>, acts: seq<Action>, k: nat)
    requires IsRun(ws, acts) && Init(ws[0]) && k < |ws|
    ensures ServiceInv(ws[k])
  {
    if k > 0 {
      RunIsServiceable(ws, acts, k - 1);
      assert StepAt(ws, acts, k - 1);
      NextKeepsService(ws[k - 1], acts[k - 1]);
    }
  }

  ghost predicate FreesAt(ws: seq<World>, acts: seq<Action>, k: nat, id: Id)
    requires k < |acts| && |ws| == |acts| + 1
  {
    id in ws[k].tables.records && Frees(ws[k], acts[k], id)
  }

  lemma RunStepKeepsAbandonedIff(ws: seq<World>, acts: seq<Action>, k: nat, id: Id)
    requires IsRun(ws, acts) && Init(ws[0]) && k < |acts| && Abandoned(ws[k], id)
    ensures Abandoned(ws[k + 1], id) <==> !FreesAt(ws, acts, k, id)
  {
    RunIsServiceable(ws, acts, k);
    assert StepAt(ws, acts, k);
    AbandonedKeptIff(ws[k], acts[k], id);
  }

  /** In every run, with any number of workers, an abandoned row stays in deletion exactly as long as nothing frees it. */
  lemma {:induction false} AbandonedUntilFreed(ws: seq<World>, acts: seq<Action>, i: nat, j: nat, id: Id)
    requires IsRun(ws, acts) && Init(ws[0]) && i <= j < |ws| && Abandoned(ws[i], id)
    ensures (forall k: nat :: i <= k <= j ==> Abandoned(ws[k], id)) <==> (forall k: nat :: i <= k < j ==> !FreesAt(ws, acts, k, id))
    decreases j
  {
    if i < j {
      AbandonedUntilFreed(ws, acts, i, j - 1, id);
      if Abandoned(ws[j - 1], id) {
        RunStepKeepsAbandonedIff(ws, acts, j - 1, id);
      }
    }
  }

  /** One event closed, the others and the rows as they were. */
  ghost predicate ClosesOne(t: Tables, t': Tables, c: Id) {
    && t'.records == t.records && c in t'.events && t'.events[c].processed
    && (forall e :: e != c ==> (e in t'.events <==> e in t.events))
    && (forall e :: e != c && e in t.events ==> t'.events[e] == t.events[e])
  }

  lemma ClosingAbandonsIff(w: World, w': World, id: Id, c: Id)
    requires ClosesOne(w.tables, w'.tables, c) && InDeletion(w, id)
    ensures Abandoned(w', id) <==> forall e :: OpenDeletion(w.tables, id, e) ==> e == c
  {
    forall e
      ensures OpenDeletion(w'.tables, id, e) <==> OpenDeletion(w.tables, id, e) && e != c
    {
    }
  }

  /** A stranding step abandons the row unless another worker is still discarding a delete event of it. */
  lemma StrandingAbandonsIff(w: World, a: Action, id: Id)
    requires Enabled(w, a) && ServiceInv(w) && Exhausts(w, a) && InDeletion(w, id)
    ensures Abandoned(Next(w, a), id) <==> forall e :: OpenDeletion(w.tables, id, e) ==> e == w.workers[a.worker].event.id
  {
    ExhaustionCloses(w, a);
    forall e
      ensures e != w.workers[a.worker].event.id ==> (e in NextTables(w, a).events <==> e in w.tables.events)
      ensures e != w.workers[a.worker].event.id && e in w.tables.events ==> NextTables(w, a).events[e] == w.tables.events[e]
    {
      ExhaustionClosesOne(w, a, e);
    }
    ClosingAbandonsIff(w, Next(w, a), id, w.workers[a.worker].event.id);
  }

  lemma ExhaustionClosesOne(w: World, a: Action, e: Id)
    requires Enabled(w, a) && Exhausts(w, a) && EventsKeyed(w.tables)
    ensures e != w.workers[a.worker].event.id ==> (e in NextTables(w, a).events <==> e in w.tables.events)
    ensures e != w.workers[a.worker].event.id && e in w.tables.events ==> NextTables(w, a).events[e] == w.tables.events[e]
  {
  }

  /** With one worker at a time a stranded row is abandoned: nobody else is discarding its events. */
  lemma StrandedAloneIsAbandoned(w: World, a: Action, id: Id)
    requires Enabled(w, a) && ServiceInv(w) && ProcessInv(w) && Exhausts(w, a) && InDeletion(w, id)
    requires forall e :: Serves(w, id, e) ==> e == w.workers[a.worker].event.id
    ensures Abandoned(Next(w, a), id)
  {
    StrandingAbandonsIff(w, a, id);
    forall e | OpenDeletion(w.tables, id, e)
      ensures Serves(w, id, e)
    {
    }
  }
}
