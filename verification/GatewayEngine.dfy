/**
  What the worker does to the Engine. A call writes at most the object of its row: gone
  after a deletion, shown as desired after an application of the row. With one process the
  Engine is as the call left it when the event is settled, so an operation reported as
  succeeded is done and an archived row leaves no object behind.
*/
module GatewayEngine {
  import opened Prelude
  import opened GatewayModel
  import opened GatewaySteps
  import opened GatewayOutbox
  import opened GatewayFencing
  import opened GatewayRuns
  import opened GatewayRevisions
  import opened GatewayHierarchy

  lemma ShowsIffInLine(engine: Objects, r: Record)
    ensures Shows(engine, r) <==> !Drifted(engine, r)
  {
  }

  // ------------------------------------------------------------------- one call

  /** Only the worker's call writes the Engine, and it has this effect; what cannot be expressed is never applied. */
  lemma CallTakesEffect(w: World, a: Action)
    requires Enabled(w, a)
    ensures !a.CallEngine? ==> Next(w, a).engine == w.engine
    ensures a.CallEngine? ==>
              var phase := w.workers[a.worker];
              && Effect(w.engine, Next(w, a).engine, phase.row, phase.event.action, !a.failed || a.landed)
              && ((phase.event.action == Apply || phase.event.action == AdoptExisting) && Inexpressible(phase.row) ==>
                    a.failed && Next(w, a).engine == w.engine)
  {
  }

  // ------------------------------------------------------------- who may be written

  lemma {:induction false} CopyWasRow(ws: seq<World>, acts: seq<Action>, k: nat, i: WorkerId) returns (j: nat)
    requires IsRun(ws, acts) && Init(ws[0]) && k < |ws| && i in ws[k].workers && InFlight(ws[k].workers[i])
    ensures j < k && ws[k].workers[i].row.id in ws[j].tables.records && ws[j].tables.records[ws[k].workers[i].row.id] == ws[k].workers[i].row
    ensures Authorised(ws[k].workers[i].row, ws[k].workers[i].event)
  {
    assert k > 0;
    assert StepAt(ws, acts, k - 1);
    RunKeepsRevisions(ws, acts, k - 1);
    CopyComesFrom(ws[k - 1], acts[k - 1], i);
    if i in ws[k - 1].workers && InFlight(ws[k - 1].workers[i]) && ws[k - 1].workers[i].row == ws[k].workers[i].row
       && ws[k - 1].workers[i].event == ws[k].workers[i].event {
      j := CopyWasRow(ws, acts, k - 1, i);
    } else {
      j := k - 1;
    }
  }

  lemma CopyComesFrom(w: World, a: Action, i: WorkerId)
    requires Enabled(w, a) && RowsKeyed(w.tables) && i in Next(w, a).workers && InFlight(Next(w, a).workers[i])
    ensures var phase := Next(w, a).workers[i];
            || (i in w.workers && InFlight(w.workers[i]) && w.workers[i].row == phase.row && w.workers[i].event == phase.event)
            || (phase.row.id in w.tables.records && w.tables.records[phase.row.id] == phase.row && Authorised(phase.row, phase.event))
  {
    NextMovesPhases(w, a);
    if a == CheckRow(i, false) && i in w.workers {
      assert Next(w, a).workers[i] == Checked(w.tables, w.workers[i].event, w.workers[i].token, false)
          || Next(w, a).workers[i].event == w.workers[i].event;
    }
  }

  /**
    In every run, with any number of workers, a call for an event is made with the row as it
    was at some earlier moment, and at that moment the row was the event's, unarchived, at the
    event's revision, and in deletion or not as the action asks.
  */
  lemma CallsAreAuthorised(ws: seq<World>, acts: seq<Action>, k: nat) returns (j: nat)
    requires IsRun(ws, acts) && Init(ws[0]) && k < |acts| && acts[k].CallEngine?
    ensures acts[k].worker in ws[k].workers && InFlight(ws[k].workers[acts[k].worker])
    ensures var phase := ws[k].workers[acts[k].worker];
            && j < k && phase.row.id in ws[j].tables.records && ws[j].tables.records[phase.row.id] == phase.row
            && Authorised(phase.row, phase.event)
  {
    assert StepAt(ws, acts, k);
    j := CopyWasRow(ws, acts, k, acts[k].worker);
  }

  // -------------------------------------------------- rows and their objects

  /** A row keeps its Engine object: only workspaces ever change their namespace. */
  ghost predicate SameObject(before: Record, after: Record) {
    after.kind == before.kind && after.name == before.name && (before.kind == Application ==> after.namespace == before.namespace)
  }

  ghost predicate RowsKeepObject(t: Tables, t': Tables) {
    forall id :: id in t.records ==> id in t'.records && SameObject(t.records[id], t'.records[id])
  }

  lemma UpdateKeepsObject(w: World, a: Action)
    requires Enabled(w, a) && RevisionInv(w) && a.UpdateRequest? && Decide(w, a).value.Commit?
    ensures var r := Decide(w, a).value.row; r.id in w.tables.records && SameObject(w.tables.records[r.id], r)
  {
    assert Outdates(a.copy, w.tables);
  }

  lemma RequestKeepsObject(w: World, a: Action)
    requires Enabled(w, a) && RevisionInv(w) && IsRequest(a) && Decide(w, a).Some? && Decide(w, a).value.Commit?
    ensures var r := Decide(w, a).value.row; r.id in w.tables.records ==> SameObject(w.tables.records[r.id], r)
  {
    if a.UpdateRequest? {
      UpdateKeepsObject(w, a);
    }
  }

  lemma FinishKeepsObjects(w: World, a: Action)
    requires Enabled(w, a) && a.FinishEvent? && RowsKeyed(w.tables)
    ensures RowsKeepObject(w.tables, NextTables(w, a))
  {
    var phase := w.workers[a.worker];
    FinishWritesOneRow(w.tables, phase.event, phase.token, phase.row, phase.failed, w.now);
  }

  lemma NextKeepsObjects(w: World, a: Action)
    requires Enabled(w, a) && RevisionInv(w)
    ensures RowsKeepObject(w.tables, NextTables(w, a))
  {
    if IsRequest(a) {
      if Decide(w, a).Some? && Decide(w, a).value.Commit? {
        RequestKeepsObject(w, a);
        assert NextTables(w, a).records == w.tables.records[Decide(w, a).value.row.id := Decide(w, a).value.row];
      }
    } else if a.FinishEvent? {
      FinishKeepsObjects(w, a);
    } else if !a.MissingRow? && !a.Discover? {
      assert NextTables(w, a).records == w.tables.records;
    }
  }

  // --------------------------------------------------------------- one process

  /** A row with an Engine object of its own. */
  ghost predicate HasObject(t: Tables, id: Id) {
    id in t.records && !t.records[id].archived && t.records[id].kind != Cluster
  }

  /** The object of an archived row is still there. */
  ghost predicate LeftOver(t: Tables, engine: Objects, id: Id) {
    id in t.records && t.records[id].archived && t.records[id].kind != Cluster && ObjectKey(t.records[id]) in engine
  }

  /** A live row goes by the same name. */
  ghost predicate Replaced(t: Tables, id: Id)
    requires id in t.records
  {
    exists live :: HasObject(t, live) && ObjectKey(t.records[live]) == ObjectKey(t.records[id])
  }

  /** An archived row's object is left only where a live row goes by the same name. */
  ghost predicate NoLeftovers(w: World) {
    forall id :: LeftOver(w.tables, w.engine, id) ==> Replaced(w.tables, id)
  }

  /** A worker's copy names its row's object, and after a call that succeeded the Engine is as the action asks. */
  ghost predicate FlightDone(w: World, i: WorkerId)
    requires i in w.workers
  {
    InFlight(w.workers[i]) ==>
      var phase := w.workers[i];
      && phase.row.id in w.tables.records && SameObject(phase.row, w.tables.records[phase.row.id])
      && (phase.Projected? && !phase.failed && phase.row.kind != Cluster ==>
            && (phase.event.action == Delete ==> ObjectKey(phase.row) !in w.engine)
            && (phase.event.action == Apply || phase.event.action == AdoptExisting ==> Shows(w.engine, phase.row)))
  }

  ghost predicate EngineInv(w: World) {
    NoLeftovers(w) && forall i :: i in w.workers ==> FlightDone(w, i)
  }

  /** What a step does to a worker that was there before. */
  lemma PhaseAfter(w: World, a: Action, i: WorkerId)
    requires Enabled(w, a) && i in w.workers && i in Next(w, a).workers
    ensures Next(w, a).workers[i] ==
              if a.CheckRow? && a.worker == i then Checked(w.tables, w.workers[i].event, w.workers[i].token, a.unavailable)
              else if a.CallEngine? && a.worker == i then Projected(w.workers[i].event, w.workers[i].token, w.workers[i].row, a.failed)
              else w.workers[i]
  {
    assert Next(w, a).workers == NextWorkers(w, a);
  }

  lemma CheckedIsDone(w: World, w': World, i: WorkerId, unavailable: bool)
    requires i in w.workers && i in w'.workers && w'.tables == w.tables && RowsKeyed(w.tables)
    requires w'.workers[i] == Checked(w.tables, w.workers[i].event, w.workers[i].token, unavailable)
    ensures FlightDone(w', i)
  {
  }

  lemma CalledIsDone(w: World, a: Action, i: WorkerId)
    requires Enabled(w, a) && a.CallEngine? && a.worker == i && FlightDone(w, i)
    ensures i in Next(w, a).workers && FlightDone(Next(w, a), i)
  {
    PhaseAfter(w, a, i);
    CallTakesEffect(w, a);
    assert Next(w, a).tables == w.tables;
  }

  lemma OtherStepsLeaveDone(w: World, w': World, i: WorkerId)
    requires i in w.workers && i in w'.workers && w'.workers[i] == w.workers[i] && w'.engine == w.engine
    requires RowsKeepObject(w.tables, w'.tables) && FlightDone(w, i)
    ensures FlightDone(w', i)
  {
  }

  lemma NextKeepsFlightDone(w: World, a: Action, i: WorkerId)
    requires Enabled(w, a) && Grounded(w) && i in Next(w, a).workers && i in w.workers && FlightDone(w, i)
    ensures FlightDone(Next(w, a), i)
  {
    PhaseAfter(w, a, i);
    if a.CallEngine? && a.worker == i {
      CalledIsDone(w, a, i);
    } else if a.CheckRow? && a.worker == i {
      CheckedIsDone(w, Next(w, a), i, a.unavailable);
    } else {
      NextKeepsObjects(w, a);
      CallTakesEffect(w, a);
      OtherStepsLeaveDone(w, Next(w, a), i);
    }
  }

  lemma ClaimIsNotInFlight(w: World, a: Action, i: WorkerId)
    requires Enabled(w, a) && i in Next(w, a).workers && i !in w.workers
    ensures !InFlight(Next(w, a).workers[i])
  {
    NextMovesPhases(w, a);
  }

  lemma FinishFindsNoObject(w: World, i: WorkerId, id: Id)
    requires Enabled(w, FinishEvent(i)) && RowsKeyed(w.tables) && FlightLive(w, i) && FlightDone(w, i)
    requires id in w.tables.records && !w.tables.records[id].archived && w.tables.records[id].kind != Cluster
    requires id in NextTables(w, FinishEvent(i)).records && NextTables(w, FinishEvent(i)).records[id].archived
    ensures ObjectKey(w.tables.records[id]) !in w.engine
  {
    var phase := w.workers[i];
    FinishWritesOneRow(w.tables, phase.event, phase.token, phase.row, phase.failed, w.now);
    assert phase.row.id == id && !phase.failed && phase.event.action == Delete;
  }

  /** Only the finish of a successful deletion archives a row, and its object is gone by then. */
  lemma ArchivingFindsNoObject(w: World, a: Action, id: Id)
    requires Enabled(w, a) && Grounded(w) && EngineInv(w)
    requires id in w.tables.records && !w.tables.records[id].archived && w.tables.records[id].kind != Cluster
    requires id in NextTables(w, a).records && NextTables(w, a).records[id].archived
    ensures a.FinishEvent? && ObjectKey(w.tables.records[id]) !in w.engine
  {
    if a.FinishEvent? {
      FinishFindsNoObject(w, a.worker, id);
    } else {
      OnlyFinishArchives(w, a, id);
    }
  }

  /** An object that appears in the Engine is that of a live row. */
  lemma NewObjectIsLive(w: World, a: Action, key: EngineKey) returns (live: Id)
    requires Enabled(w, a) && Grounded(w) && EngineInv(w) && key in Next(w, a).engine && key !in w.engine
    ensures HasObject(w.tables, live) && ObjectKey(w.tables.records[live]) == key && NextTables(w, a) == w.tables
  {
    CallTakesEffect(w, a);
    var phase := w.workers[a.worker];
    assert FlightLive(w, a.worker) && FlightDone(w, a.worker);
    live := phase.row.id;
  }

  /** A row live before a step that leaves its object is live after it. */
  lemma StaysLive(w: World, a: Action, live: Id)
    requires Enabled(w, a) && Grounded(w) && EngineInv(w) && HasObject(w.tables, live) && ObjectKey(w.tables.records[live]) in w.engine
    ensures HasObject(NextTables(w, a), live) && ObjectKey(NextTables(w, a).records[live]) == ObjectKey(w.tables.records[live])
  {
    NextKeepsObjects(w, a);
    assert SameObject(w.tables.records[live], NextTables(w, a).records[live]);
    if NextTables(w, a).records[live].archived {
      ArchivingFindsNoObject(w, a, live);
    }
  }

  /** An archived row whose object was there before the step was archived before it: the step would have found no object. */
  lemma WasLeftOver(w: World, a: Action, id: Id)
    requires Enabled(w, a) && Grounded(w) && EngineInv(w) && LeftOver(NextTables(w, a), w.engine, id)
    ensures LeftOver(w.tables, w.engine, id) && ObjectKey(NextTables(w, a).records[id]) == ObjectKey(w.tables.records[id])
  {
    NextKeepsObjects(w, a);
    NewRowsAreLive(w, a, id);
    assert SameObject(w.tables.records[id], NextTables(w, a).records[id]);
    if !w.tables.records[id].archived {
      ArchivingFindsNoObject(w, a, id);
    }
  }

  lemma OldLeftover(w: World, a: Action, id: Id)
    requires Enabled(w, a) && Grounded(w) && EngineInv(w) && LeftOver(w.tables, w.engine, id)
    requires id in NextTables(w, a).records && ObjectKey(NextTables(w, a).records[id]) == ObjectKey(w.tables.records[id])
    ensures Replaced(NextTables(w, a), id)
  {
    assert Replaced(w.tables, id);
    var live :| HasObject(w.tables, live) && ObjectKey(w.tables.records[live]) == ObjectKey(w.tables.records[id]);
    StaysLive(w, a, live);
  }

  lemma NextLeavesNothing(w: World, a: Action, id: Id)
    requires Enabled(w, a) && Grounded(w) && EngineInv(w) && LeftOver(NextTables(w, a), Next(w, a).engine, id)
    ensures Replaced(NextTables(w, a), id)
  {
    var key := ObjectKey(NextTables(w, a).records[id]);
    if key !in w.engine {
      var live := NewObjectIsLive(w, a, key);
    } else {
      WasLeftOver(w, a, id);
      OldLeftover(w, a, id);
    }
  }

  /** No step inserts an archived row. */
  lemma NewRowsAreLive(w: World, a: Action, id: Id)
    requires Enabled(w, a) && RowsKeyed(w.tables) && id in NextTables(w, a).records && NextTables(w, a).records[id].archived
    ensures id in w.tables.records
  {
    if IsRequest(a) {
      RequestRowsAreLive(w, a, id);
    } else if a.FinishEvent? {
      var phase := w.workers[a.worker];
      FinishWritesOneRow(w.tables, phase.event, phase.token, phase.row, phase.failed, w.now);
    } else if !a.MissingRow? && !a.Discover? {
      assert NextTables(w, a).records == w.tables.records;
    }
  }

  lemma RequestRowsAreLive(w: World, a: Action, id: Id)
    requires Enabled(w, a) && RowsKeyed(w.tables) && IsRequest(a) && id in NextTables(w, a).records && NextTables(w, a).records[id].archived
    ensures id in w.tables.records
  {
    if Decide(w, a).Some? && Decide(w, a).value.Commit? {
      assert NextTables(w, a).records == w.tables.records[Decide(w, a).value.row.id := Decide(w, a).value.row];
    }
  }

  lemma NextKeepsEngine(w: World, a: Action)
    requires Enabled(w, a) && OneProcess(w, a) && Grounded(w) && EngineInv(w)
    ensures EngineInv(Next(w, a))
  {
    var w' := Next(w, a);
    forall i | i in w'.workers
      ensures FlightDone(w', i)
    {
      if i in w.workers {
        NextKeepsFlightDone(w, a, i);
      } else {
        ClaimIsNotInFlight(w, a, i);
      }
    }
    forall id | LeftOver(w'.tables, w'.engine, id)
      ensures Replaced(w'.tables, id)
    {
      NextLeavesNothing(w, a, id);
    }
  }

  lemma {:induction false} RunKeepsEngine(ws: seq<World>, acts: seq<Action>, k: nat)
    requires OneProcessRun(ws, acts) && k < |ws|
    ensures Grounded(ws[k]) && EngineInv(ws[k])
  {
    RunIsGrounded(ws, acts, k);
    if k > 0 {
      RunKeepsEngine(ws, acts, k - 1);
      assert StepAt(ws, acts, k - 1) && OneProcess(ws[k - 1], acts[k - 1]);
      NextKeepsEngine(ws[k - 1], acts[k - 1]);
    }
  }

  /** In every run of one process a row's object is gone the moment the row is archived. */
  lemma ArchivedObjectIsGone(ws: seq<World>, acts: seq<Action>, k: nat, id: Id)
    requires OneProcessRun(ws, acts) && k < |acts|
    requires id in ws[k].tables.records && !ws[k].tables.records[id].archived && ws[k].tables.records[id].kind != Cluster
    requires id in ws[k + 1].tables.records && ws[k + 1].tables.records[id].archived
    ensures ObjectKey(ws[k + 1].tables.records[id]) !in ws[k + 1].engine
  {
    RunKeepsEngine(ws, acts, k);
    assert StepAt(ws, acts, k);
    ArchivingFindsNoObject(ws[k], acts[k], id);
    NextKeepsObjects(ws[k], acts[k]);
  }

  // ------------------------------------------------------- what success means

  /** Event `e` is settled in step `k` with its operation succeeded. */
  ghost predicate SucceedsAt(ws: seq<World>, k: nat, e: Id) {
    && ProcessesAt(ws, k, e)
    && ws[k + 1].tables.events[e].opId in ws[k + 1].tables.operations
    && ws[k + 1].tables.operations[ws[k + 1].tables.events[e].opId].state == OpSucceeded
  }

  lemma DiscardReportsFailure(t: Tables, e: Event, token: Token)
    requires OutboxInv(t) && Holds(t, e.id, token)
    ensures var t' := Discard(t, e, token); var op := t.events[e.id].opId;
            op in t'.operations && t'.operations[op].state == OpFailed
  {
    assert Lockstep(t.operations[t.events[e.id].opId].state, t.events[e.id]);
  }

  lemma EarlyFailureReportsFailure(t: Tables, e: Event, token: Token, now: Time)
    requires OutboxInv(t) && Holds(t, e.id, token)
    ensures var t' := FailEvent(t, e, token, now); var op := t.events[e.id].opId;
            op in t'.operations && t'.operations[op].state != OpSucceeded
  {
    assert Lockstep(t.operations[t.events[e.id].opId].state, t.events[e.id]);
  }

  lemma FailedFinishReportsFailure(t: Tables, e: Event, token: Token, copy: Record, now: Time)
    requires OutboxInv(t) && Holds(t, e.id, token)
    ensures var t' := Finish(t, e, token, copy, true, now); var op := t.events[e.id].opId;
            op in t'.operations && t'.operations[op].state != OpSucceeded
  {
    assert Lockstep(t.operations[t.events[e.id].opId].state, t.events[e.id]);
  }

  lemma OnlySuccessSucceeds(w: World, a: Action, e: Id)
    requires Enabled(w, a) && OutboxInv(w.tables) && Settles(a) && Holding(w, a.worker) && w.workers[a.worker].event.id == e
    requires var t' := Next(w, a).tables; e in t'.events && t'.events[e].opId in t'.operations && t'.operations[t'.events[e].opId].state == OpSucceeded
    ensures a.FinishEvent? && !w.workers[a.worker].failed
  {
    var phase := w.workers[a.worker];
    NextGrows(w, a);
    assert EventAdvances(w.tables.events[e], Next(w, a).tables.events[e]);
    if a.DiscardEvent? {
      DiscardReportsFailure(w.tables, phase.event, phase.token);
    } else if a.FailClaim? {
      EarlyFailureReportsFailure(w.tables, phase.event, phase.token, w.now);
    } else if phase.failed {
      FailedFinishReportsFailure(w.tables, phase.event, phase.token, phase.row, w.now);
    }
  }

  /**
    In every run of one process, when an event is settled and its operation reported as
    succeeded, the Engine is as the event asks: the object is gone after a deletion, and shown
    as the worker read the row after an application of it.
  */
  lemma SuccessIsDone(ws: seq<World>, acts: seq<Action>, k: nat, e: Id)
    requires OneProcessRun(ws, acts) && SucceedsAt(ws, k, e)
    ensures acts[k].FinishEvent? && acts[k].worker in ws[k].workers && InFlight(ws[k].workers[acts[k].worker])
    ensures var row, event := ws[k].workers[acts[k].worker].row, ws[k].tables.events[e];
            && row.id == event.resourceId && Authorised(row, ws[k].workers[acts[k].worker].event)
            && (row.kind != Cluster && event.action == Delete ==> ObjectKey(row) !in ws[k + 1].engine)
            && (row.kind != Cluster && (event.action == Apply || event.action == AdoptExisting) ==> Shows(ws[k + 1].engine, row))
  {
    ProcessedOnce(ws, acts, k, e);
    RunKeepsEngine(ws, acts, k);
    assert StepAt(ws, acts, k);
    OnlySuccessSucceeds(ws[k], acts[k], e);
    CallTakesEffect(ws[k], acts[k]);
    var i := acts[k].worker;
    assert FlightDone(ws[k], i) && FlightLive(ws[k], i);
    var j := CopyWasRow(ws, acts, k, i);
  }

  // ------------------------------------------------------------ leases and results

  /** Nobody settles or claims event `e` in this step. */
  ghost predicate LeavesEvent(ws: seq<World>, acts: seq<Action>, k: nat, e: Id)
    requires k < |acts| <= |ws|
  {
    e !in Touched(ws[k], acts[k])
  }

  lemma {:induction false} ClaimLasts(ws: seq<World>, acts: seq<Action>, k: nat, j: nat, e: Id)
    requires IsRun(ws, acts) && Init(ws[0]) && k < j < |ws| && acts[k].ClaimEvent? && acts[k].event == e
    requires forall m :: k < m < j ==> LeavesEvent(ws, acts, m, e)
    ensures e in ws[j].tables.events && ws[j].tables.events[e].claim == Some(Claim(acts[k].token, ws[k].now + 30))
    decreases j
  {
    if j == k + 1 {
      assert StepAt(ws, acts, k);
      NextLandsClaims(ws[k], acts[k]);
    } else {
      ClaimLasts(ws, acts, k, j - 1, e);
      StepIsFenced(ws, acts, j - 1);
      assert LeavesEvent(ws, acts, j - 1, e);
    }
  }

  /** In every run a claim keeps all others off its event for 30 seconds, unless the event is settled before. */
  lemma LeaseProtects(ws: seq<World>, acts: seq<Action>, k: nat, j: nat, e: Id)
    requires IsRun(ws, acts) && Init(ws[0]) && k < j < |acts|
    requires acts[k].ClaimEvent? && acts[k].event == e && acts[j].ClaimEvent? && acts[j].event == e
    requires forall m :: k < m < j ==> LeavesEvent(ws, acts, m, e)
    ensures ws[j].now > ws[k].now + 30
  {
    ClaimLasts(ws, acts, k, j, e);
    assert StepAt(ws, acts, j);
  }

  /** Success: event settled, operation succeeded, row in sync; archived without a key, adopted, or applied as the action was. */
  ghost predicate ReportsSuccess(action: EventAction, copy: Record, row: Record, event: Event, op: Operation) {
    && event.processed && op.state == OpSucceeded && row.syncState == Synced
    && (action == Delete ==> row.archived && row.activeKey == None && row.state == Archived)
    && (action != Delete ==> !row.archived && row.activeKey == copy.activeKey)
    && (action == Adopt || action == AdoptExisting ==> row.state == Adopted)
    && (action == Apply || action == AdoptExisting ==> row.appliedRevision == row.desiredRevision)
  }

  /** Failure: one attempt more; the third one settles all three as failed, the others wait one second an attempt. */
  ghost predicate ReportsFailure(before: Event, row: Record, event: Event, op: Operation, now: Time) {
    && event.attempts == before.attempts + 1 && event.claim == None && !row.archived
    && (if event.attempts == 3 then event.processed && op.state == OpFailed && row.syncState == Failed
        else !event.processed && op.state == OpRetrying && row.syncState == Retrying && event.availableAt == now + event.attempts)
  }

  /** A finishing transaction that lands reports one outcome in row, event and operation alike. */
  lemma FinishReports(t: Tables, e: Event, token: Token, copy: Record, failed: bool, now: Time)
    requires OutboxInv(t) && FinishLands(t, e, token, copy, failed) && !copy.archived
    ensures var t', before, current := Finish(t, e, token, copy, failed, now), t.events[e.id], t.records[copy.id];
            && copy.id in t'.records && e.id in t'.events && before.opId in t'.operations
            && var row, event, op := t'.records[copy.id], t'.events[e.id], t'.operations[before.opId];
               && row.desired == current.desired && row.desiredRevision == current.desiredRevision && row.source == current.source
               && row.kind == current.kind && row.name == current.name && row.namespace == current.namespace
               && row.parent == current.parent && row.project == current.project && row.moduleId == current.moduleId
               && (if failed then ReportsFailure(before, row, event, op, now) else ReportsSuccess(e.action, copy, row, event, op))
  {
    var before := t.events[e.id];
    assert t.eventIndex[before.opId] == e.id && before.opId in t.operations;
    assert Lockstep(t.operations[before.opId].state, before);
  }

  /** An attempt that ends before the Engine counts like one that failed there, but leaves the row alone. */
  lemma EarlyFailureReports(t: Tables, e: Event, token: Token, now: Time)
    requires OutboxInv(t) && Holds(t, e.id, token)
    ensures var t', before := FailEvent(t, e, token, now), t.events[e.id];
            && t'.records == t.records && e.id in t'.events && before.opId in t'.operations
            && var event, op := t'.events[e.id], t'.operations[before.opId];
               && event.attempts == before.attempts + 1 && event.claim == None
               && (if event.attempts == 3 then event.processed && op.state == OpFailed
                   else !event.processed && op.state == OpRetrying && event.availableAt == now + event.attempts)
  {
    assert Lockstep(t.operations[t.events[e.id].opId].state, t.events[e.id]);
  }

  /** A discarded event is settled as failed, and its row left alone. */
  lemma DiscardReports(t: Tables, e: Event, token: Token)
    requires OutboxInv(t) && Holds(t, e.id, token)
    ensures var t', before := Discard(t, e, token), t.events[e.id];
            && t'.records == t.records && e.id in t'.events && t'.events[e.id] == before.(processed := true, claim := None)
            && before.opId in t'.operations && t'.operations[before.opId].state == OpFailed
  {
    DiscardReportsFailure(t, e, token);
  }

  /** An event that may be claimed: open, due, and unclaimed or past its lease. */
  predicate IsDue(e: Event, now: Time) {
    !e.processed && e.availableAt <= now && (e.claim == None || e.claim.value.until < now)
  }

  /** A claim takes the oldest event that is due. */
  lemma ClaimsTheOldestDue(w: World, i: WorkerId, token: Token, e: Id)
    requires Enabled(w, ClaimEvent(i, token, e))
    ensures e in w.tables.events && IsDue(w.tables.events[e], w.now)
    ensures forall other :: other in w.tables.events && IsDue(w.tables.events[other], w.now) ==> w.tables.events[e].createdAt <= w.tables.events[other].createdAt
    ensures Next(w, ClaimEvent(i, token, e)).tables ==
              w.tables.(events := w.tables.events[e := w.tables.events[e].(claim := Some(Claim(token, w.now + 30)))])
  {
    forall other | other in w.tables.events && IsDue(w.tables.events[other], w.now)
      ensures Claimable(w.tables.events[other], w.now)
    {
    }
  }
}
