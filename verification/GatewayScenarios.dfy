/**
  Concrete runs from the empty tables that reach the exceptions the theorems name: a
  row stranded in deletion after three early failures, and an archived row brought
  back by a second worker. Both start with an imported workspace and its deletion.
*/
module GatewayScenarios {
  import opened Prelude
  import opened GatewayModel
  import opened GatewaySteps
  import opened GatewayFencing
  import opened GatewayRuns
  import opened GatewayHierarchy
  import opened GatewayArchive
  import opened GatewayServed
  import opened GatewayConvergence

  const DOOMED := RACE_ROW.(syncState := Deleting)

  /** One row, its first delete operation and event, and what the workers hold. */
  function Stage(row: Record, op: OpState, e: Event, workers: map<WorkerId, Phase>, tokens: set<Token>, now: Time): World {
    World(Tables(map[0 := row], map[1 := RACE_OPERATION.(state := op)], map[(1, "k1") := 1], map[1 := e], map[1 := 1]),
          map[], map["project" := "module"], workers, tokens, {}, now)
  }

  const SECOND_OPERATION := Operation(2, "k2", 1, "", Request(1, Workspace, DeleteVerb, Some(0), None), 0, EventAction.Delete, OpPending)
  const SECOND_EVENT := Event(2, 2, 0, EventAction.Delete, 1, 0, 0, false, None, 0)

  /** The same with a second delete operation and event. */
  function Stage2(row: Record, op: OpState, e: Event, op2: OpState, e2: Event, workers: map<WorkerId, Phase>, tokens: set<Token>, now: Time): World {
    World(Tables(map[0 := row],
                 map[1 := RACE_OPERATION.(state := op), 2 := SECOND_OPERATION.(state := op2)],
                 map[(1, "k1") := 1, (1, "k2") := 2],
                 map[1 := e, 2 := e2], map[1 := 1, 2 := 2]),
          map[], map["project" := "module"], workers, tokens, {}, now)
  }

  lemma AloneIsReachable(w: World)
    requires ReachableAlone(w)
    ensures Reachable(w)
  {
    var ws, acts :| OneProcessRun(ws, acts) && ws[|acts|] == w;
    assert IsRun(ws, acts) && Init(ws[0]);
  }

  lemma PrefixIsReachable(ws: seq<World>, acts: seq<Action>, k: nat)
    requires OneProcessRun(ws, acts) && k < |ws|
    ensures ReachableAlone(ws[k])
  {
    var vs, bs := ws[..k + 1], acts[..k];
    forall i: nat | i < |bs|
      ensures StepAt(vs, bs, i) && OneProcess(vs[i], bs[i])
    {
      assert StepAt(ws, acts, i);
    }
    assert OneProcessRun(vs, bs);
  }

  // ------------------------------------------------- three early failures strand a row

  /** The first event after `n` failures, claimable again from `due` on. */
  function Failed(n: nat, due: Time): Event {
    RACE_EVENT.(attempts := n, availableAt := due)
  }

  function ClaimedBy(e: Event, token: Token, now: Time): Event {
    e.(claim := Some(Claim(token, now + LEASE)))
  }

  /** An attempt that fails before the Engine: claim, check without database, failure. */
  lemma EarlyFailure(op: OpState, n: nat, due: Time, token: Token, tokens: set<Token>, now: Time)
    requires n + 1 < MAX_OUTBOX_ATTEMPTS && (op == OpPending || op == OpRetrying) && due <= now && token !in tokens
    requires ReachableAlone(Stage(DOOMED, op, Failed(n, due), map[], tokens, now))
    ensures ReachableAlone(Stage(DOOMED, OpRetrying, Failed(n + 1, now + n + 1), map[], tokens + {token}, now))
  {
    ClaimAndLose(op, n, due, token, tokens, now);
    var e := ClaimedBy(Failed(n, due), token, now);
    var w := Stage(DOOMED, op, e, map[7 := Failing(e, token)], tokens + {token}, now);
    FailureStep(w, op, e, n, token, tokens + {token}, now);
    ReachableAloneStep(w, FailClaim(7));
  }

  lemma FailureSettles(t: Tables, op: OpState, e: Event, n: nat, now: Time)
    requires n + 1 < MAX_OUTBOX_ATTEMPTS && (op == OpPending || op == OpRetrying) && e.(claim := None) == Failed(n, e.availableAt)
    requires t == Stage(DOOMED, op, e, map[], {}, now).tables
    ensures Settle(t, FailedAttempt(e, now), FailedOpState(e)) == Stage(DOOMED, OpRetrying, Failed(n + 1, now + n + 1), map[], {}, now).tables
  {
    assert t.operations[1 := RACE_OPERATION.(state := OpRetrying)] == map[1 := RACE_OPERATION.(state := OpRetrying)];
    assert t.events[1 := Failed(n + 1, now + n + 1)] == map[1 := Failed(n + 1, now + n + 1)];
  }

  lemma FailureStep(w: World, op: OpState, e: Event, n: nat, token: Token, tokens: set<Token>, now: Time)
    requires n + 1 < MAX_OUTBOX_ATTEMPTS && (op == OpPending || op == OpRetrying)
    requires e.claim == Some(Claim(token, now + LEASE)) && e.(claim := None) == Failed(n, e.availableAt)
    requires w == Stage(DOOMED, op, e, map[7 := Failing(e, token)], tokens, now)
    ensures Enabled(w, FailClaim(7)) && Next(w, FailClaim(7)) == Stage(DOOMED, OpRetrying, Failed(n + 1, now + n + 1), map[], tokens, now)
  {
    FailureSettles(w.tables, op, e, n, now);
    assert Next(w, FailClaim(7)).tables == Settle(w.tables, FailedAttempt(e, now), FailedOpState(e));
    assert Next(w, FailClaim(7)).workers == map[];
  }

  lemma ClaimAndLose(op: OpState, n: nat, due: Time, token: Token, tokens: set<Token>, now: Time)
    requires due <= now && token !in tokens
    requires ReachableAlone(Stage(DOOMED, op, Failed(n, due), map[], tokens, now))
    ensures var e := ClaimedBy(Failed(n, due), token, now);
            ReachableAlone(Stage(DOOMED, op, e, map[7 := Failing(e, token)], tokens + {token}, now))
  {
    var w := Stage(DOOMED, op, Failed(n, due), map[], tokens, now);
    var e := ClaimedBy(Failed(n, due), token, now);
    var w1 := Stage(DOOMED, op, e, map[7 := Claimed(e, token)], tokens + {token}, now);
    ClaimStage(w, w1, op, n, due, token, tokens, now);
    ReachableAloneStep(w, ClaimEvent(7, token, 1));
    assert Next(w1, CheckRow(7, true)).workers == map[7 := Failing(e, token)];
    ReachableAloneStep(w1, CheckRow(7, true));
  }

  lemma ClaimStage(w: World, w1: World, op: OpState, n: nat, due: Time, token: Token, tokens: set<Token>, now: Time)
    requires due <= now && token !in tokens && w == Stage(DOOMED, op, Failed(n, due), map[], tokens, now)
    requires var e := ClaimedBy(Failed(n, due), token, now); w1 == Stage(DOOMED, op, e, map[7 := Claimed(e, token)], tokens + {token}, now)
    ensures Enabled(w, ClaimEvent(7, token, 1)) && Next(w, ClaimEvent(7, token, 1)) == w1
  {
    assert Next(w, ClaimEvent(7, token, 1)).tables == w1.tables;
  }

  lemma Wait(op: OpState, n: nat, due: Time, tokens: set<Token>, now: Time, elapsed: nat)
    requires ReachableAlone(Stage(DOOMED, op, Failed(n, due), map[], tokens, now))
    ensures ReachableAlone(Stage(DOOMED, op, Failed(n, due), map[], tokens, now + elapsed))
  {
    ReachableAloneStep(Stage(DOOMED, op, Failed(n, due), map[], tokens, now), Tick(elapsed));
  }

  lemma DoomedIsReachable()
    ensures ReachableAlone(Stage(DOOMED, OpPending, Failed(0, 0), map[], {}, 0))
  {
    RaceIsReachable();
    PrefixIsReachable(RACE_WORLDS, RACE_ACTIONS, 2);
    DoomedStage();
  }

  lemma OneEarlyFailure()
    ensures ReachableAlone(Stage(DOOMED, OpRetrying, Failed(1, 1), map[], {7}, 1))
  {
    DoomedIsReachable();
    EarlyFailure(OpPending, 0, 0, 7, {}, 0);
    assert {} + {7} == {7};
    Wait(OpRetrying, 1, 1, {7}, 0, 1);
  }

  lemma TwoEarlyFailures()
    ensures ReachableAlone(Stage(DOOMED, OpRetrying, Failed(2, 3), map[], {7, 8}, 3))
  {
    OneEarlyFailure();
    EarlyFailure(OpRetrying, 1, 1, 8, {7}, 1);
    assert {7} + {8} == {7, 8};
    Wait(OpRetrying, 2, 3, {7, 8}, 1, 2);
  }

  lemma DoomedStage()
    ensures RACE_WORLDS[2] == Stage(DOOMED, OpPending, Failed(0, 0), map[], {}, 0)
  {
  }

  /** A run of one process in which the database is away at three checks strands the row and leaves no event to finish it. */
  lemma StrandingIsReachable() returns (w: World)
    ensures ReachableAlone(w) && Enabled(w, FailClaim(7)) && Strands(w, FailClaim(7))
    ensures ReachableAlone(Next(w, FailClaim(7))) && Abandoned(Next(w, FailClaim(7)), 0)
  {
    TwoEarlyFailures();
    ClaimAndLose(OpRetrying, 2, 3, 9, {7, 8}, 3);
    var e := ClaimedBy(Failed(2, 3), 9, 3);
    w := Stage(DOOMED, OpRetrying, e, map[7 := Failing(e, 9)], {7, 8} + {9}, 3);
    LastFailureStrands(w, e);
    ReachableAloneStep(w, FailClaim(7));
  }

  lemma LastFailureStrands(w: World, e: Event)
    requires e == ClaimedBy(Failed(2, 3), 9, 3) && w == Stage(DOOMED, OpRetrying, e, map[7 := Failing(e, 9)], {7, 8} + {9}, 3)
    ensures Enabled(w, FailClaim(7)) && Strands(w, FailClaim(7)) && Abandoned(Next(w, FailClaim(7)), 0)
  {
    assert Holding(w, 7);
    assert InDeletion(w, 0) && forall c :: Serves(w, 0, c) ==> c == 1;
    assert Next(w, FailClaim(7)).tables == GatewayModel.FailEvent(w.tables, e, 9, 3);
  }

  // ------------------------------------------------ two workers bring a row back

  const RETRIED := RACE_ROW.(syncState := Retrying)

  /** The first deletion fails in the Engine and will be retried. */
  lemma DeletionFailsOnce()
    ensures Reachable(Stage(RETRIED, OpRetrying, Failed(1, 1), map[], {7}, 0))
  {
    RaceIsReachable();
    assert ReachableAlone(RACE_WORLDS[4]);
    AloneIsReachable(RACE_WORLDS[4]);
    var ready := Stage(DOOMED, OpPending, RACE_CLAIMED, map[7 := Ready(RACE_CLAIMED, 7, DOOMED)], {7}, 0);
    assert RACE_WORLDS[4] == ready;
    var called := Stage(DOOMED, OpPending, RACE_CLAIMED, map[7 := Projected(RACE_CLAIMED, 7, DOOMED, true)], {7}, 0);
    assert Next(ready, CallEngine(7, true, false)).workers == called.workers;
    ReachableStep(ready, CallEngine(7, true, false));
    FirstFinish(called);
    ReachableStep(called, FinishEvent(7));
  }

  lemma FirstFails(t: Tables)
    requires t == Stage(DOOMED, OpPending, RACE_CLAIMED, map[], {7}, 0).tables
    ensures Finish(t, RACE_CLAIMED, 7, DOOMED, true, 0) == PutRow(Settle(t, Failed(1, 1), OpRetrying), RETRIED)
    ensures PutRow(Settle(t, Failed(1, 1), OpRetrying), RETRIED) == Stage(RETRIED, OpRetrying, Failed(1, 1), map[], {7}, 0).tables
  {
    assert Holds(t, 1, 7) && t.operations[1].state == OpPending;
    assert t.operations[1 := RACE_OPERATION.(state := OpRetrying)] == map[1 := RACE_OPERATION.(state := OpRetrying)];
    assert t.events[1 := Failed(1, 1)] == map[1 := Failed(1, 1)];
  }

  lemma FirstFinish(called: World)
    requires called == Stage(DOOMED, OpPending, RACE_CLAIMED, map[7 := Projected(RACE_CLAIMED, 7, DOOMED, true)], {7}, 0)
    ensures Enabled(called, FinishEvent(7)) && Next(called, FinishEvent(7)) == Stage(RETRIED, OpRetrying, Failed(1, 1), map[], {7}, 0)
  {
    FirstFails(called.tables);
    assert Next(called, FinishEvent(7)).tables == Finish(called.tables, RACE_CLAIMED, 7, DOOMED, true, 0);
    assert Next(called, FinishEvent(7)).workers == map[];
  }

  const SECOND_DELETE := DeleteRequest(RACE_ADMIN, 0, Workspace, "k2", Ids(2, 2, 2))

  /** The row is no longer marked for deletion, so a second delete request is accepted. */
  lemma SecondDeleteIsAccepted()
    ensures Reachable(Stage2(DOOMED, OpRetrying, Failed(1, 1), OpPending, SECOND_EVENT, map[], {7}, 1))
  {
    DeletionFailsOnce();
    var w := Stage(RETRIED, OpRetrying, Failed(1, 1), map[], {7}, 0);
    var w1 := Stage2(DOOMED, OpRetrying, Failed(1, 1), OpPending, SECOND_EVENT, map[], {7}, 0);
    SecondDelete(w, w1);
    ReachableStep(w, SECOND_DELETE);
    ReachableStep(w1, Tick(1));
  }

  lemma SecondDelete(w: World, w1: World)
    requires w == Stage(RETRIED, OpRetrying, Failed(1, 1), map[], {7}, 0)
    requires w1 == Stage2(DOOMED, OpRetrying, Failed(1, 1), OpPending, SECOND_EVENT, map[], {7}, 0)
    ensures Enabled(w, SECOND_DELETE) && Next(w, SECOND_DELETE) == w1
  {
    assert !HasChildren(w.tables, 0);
    assert Decide(w, SECOND_DELETE) == Some(Commit(DOOMED, SECOND_OPERATION, SECOND_EVENT));
    assert Next(w, SECOND_DELETE).tables == Write(w.tables, Decide(w, SECOND_DELETE).value);
    assert Next(w, SECOND_DELETE).tables == w1.tables;
  }

  const FIRST_HELD := ClaimedBy(Failed(1, 1), 8, 1)
  const SECOND_HELD := ClaimedBy(SECOND_EVENT, 9, 1)

  /** Two workers claim the two delete events. */
  lemma BothClaim()
    ensures Reachable(Stage2(DOOMED, OpRetrying, FIRST_HELD, OpPending, SECOND_HELD, map[7 := Claimed(FIRST_HELD, 8), 9 := Claimed(SECOND_HELD, 9)], {7, 8, 9}, 1))
  {
    SecondDeleteIsAccepted();
    var w := Stage2(DOOMED, OpRetrying, Failed(1, 1), OpPending, SECOND_EVENT, map[], {7}, 1);
    var w1 := Stage2(DOOMED, OpRetrying, FIRST_HELD, OpPending, SECOND_EVENT, map[7 := Claimed(FIRST_HELD, 8)], {7, 8}, 1);
    FirstClaim(w, w1);
    ReachableStep(w, ClaimEvent(7, 8, 1));
    SecondClaim(w1);
    ReachableStep(w1, ClaimEvent(9, 9, 2));
  }

  lemma FirstClaim(w: World, w1: World)
    requires w == Stage2(DOOMED, OpRetrying, Failed(1, 1), OpPending, SECOND_EVENT, map[], {7}, 1)
    requires w1 == Stage2(DOOMED, OpRetrying, FIRST_HELD, OpPending, SECOND_EVENT, map[7 := Claimed(FIRST_HELD, 8)], {7, 8}, 1)
    ensures Enabled(w, ClaimEvent(7, 8, 1)) && Next(w, ClaimEvent(7, 8, 1)) == w1
  {
    var v := Next(w, ClaimEvent(7, 8, 1));
    assert v.tables == w1.tables && v.workers == w1.workers && v.tokens == w1.tokens;
  }

  lemma SecondClaim(w: World)
    requires w == Stage2(DOOMED, OpRetrying, FIRST_HELD, OpPending, SECOND_EVENT, map[7 := Claimed(FIRST_HELD, 8)], {7, 8}, 1)
    ensures Enabled(w, ClaimEvent(9, 9, 2))
    ensures Next(w, ClaimEvent(9, 9, 2)) ==
            Stage2(DOOMED, OpRetrying, FIRST_HELD, OpPending, SECOND_HELD, map[7 := Claimed(FIRST_HELD, 8), 9 := Claimed(SECOND_HELD, 9)], {7, 8, 9}, 1)
  {
    var v := Next(w, ClaimEvent(9, 9, 2));
    var u := Stage2(DOOMED, OpRetrying, FIRST_HELD, OpPending, SECOND_HELD, map[7 := Claimed(FIRST_HELD, 8), 9 := Claimed(SECOND_HELD, 9)], {7, 8, 9}, 1);
    assert v.tables == u.tables && v.workers == u.workers && v.tokens == u.tokens;
  }

  /** A stage of the two workers, row and events untouched. */
  function Working(first: Phase, second: Phase): World {
    Stage2(DOOMED, OpRetrying, FIRST_HELD, OpPending, SECOND_HELD, map[7 := first, 9 := second], {7, 8, 9}, 1)
  }

  lemma PhaseStep(first: Phase, second: Phase, a: Action, after: World)
    requires Reachable(Working(first, second)) && Enabled(Working(first, second), a)
    requires a.CheckRow? || (a.CallEngine? && Working(first, second).workers[a.worker].event.action == EventAction.Delete)
    requires after == Working(first, second).(workers := NextWorkers(Working(first, second), a))
    requires !(a.CallEngine? && a.worker in after.workers && Working(first, second).workers[a.worker].row.kind == Application)
    ensures Reachable(after)
  {
    var w := Working(first, second);
    assert NextEngine(w, a) == map[];
    assert Next(w, a) == after;
    ReachableStep(w, a);
  }

  /** Both pass the row check. */
  lemma BothCheck()
    ensures Reachable(Working(Ready(FIRST_HELD, 8, DOOMED), Ready(SECOND_HELD, 9, DOOMED)))
  {
    BothClaim();
    var c1, c2 := Claimed(FIRST_HELD, 8), Claimed(SECOND_HELD, 9);
    var r1, r2 := Ready(FIRST_HELD, 8, DOOMED), Ready(SECOND_HELD, 9, DOOMED);
    assert NextWorkers(Working(c1, c2), CheckRow(7, false)) == map[7 := r1, 9 := c2];
    PhaseStep(c1, c2, CheckRow(7, false), Working(r1, c2));
    assert NextWorkers(Working(r1, c2), CheckRow(9, false)) == map[7 := r1, 9 := r2];
    PhaseStep(r1, c2, CheckRow(9, false), Working(r1, r2));
  }

  /** The first deletion succeeds in the Engine, the second is reported as failed. */
  lemma BothCall()
    ensures Reachable(Working(Projected(FIRST_HELD, 8, DOOMED, false), Projected(SECOND_HELD, 9, DOOMED, true)))
  {
    BothCheck();
    var r1, r2 := Ready(FIRST_HELD, 8, DOOMED), Ready(SECOND_HELD, 9, DOOMED);
    var p1, p2 := Projected(FIRST_HELD, 8, DOOMED, false), Projected(SECOND_HELD, 9, DOOMED, true);
    assert NextWorkers(Working(r1, r2), CallEngine(7, false, true)) == map[7 := p1, 9 := r2];
    PhaseStep(r1, r2, CallEngine(7, false, true), Working(p1, r2));
    assert NextWorkers(Working(p1, r2), CallEngine(9, true, false)) == map[7 := p1, 9 := p2];
    PhaseStep(p1, r2, CallEngine(9, true, false), Working(p1, p2));
  }

  const FIRST_DONE := FIRST_HELD.(processed := true, claim := None)
  const FREED := DOOMED.(syncState := Synced, state := Lifecycle.Archived, archived := true, activeKey := None, updatedAt := 1)

  /** The first deletion is finished, the second worker has yet to record its failure. */
  const HALF_DONE := Stage2(FREED, OpSucceeded, FIRST_DONE, OpPending, SECOND_HELD,
                            map[9 := Projected(SECOND_HELD, 9, DOOMED, true)], {7, 8, 9}, 1)

  lemma FirstFinishes(t: Tables)
    requires t == Working(Projected(FIRST_HELD, 8, DOOMED, false), Projected(SECOND_HELD, 9, DOOMED, true)).tables
    ensures Finish(t, FIRST_HELD, 8, DOOMED, false, 1) == PutRow(Settle(t, FIRST_DONE, OpSucceeded), FREED)
    ensures Settle(t, FIRST_DONE, OpSucceeded) ==
            t.(events := map[1 := FIRST_DONE, 2 := SECOND_HELD],
               operations := map[1 := RACE_OPERATION.(state := OpSucceeded), 2 := SECOND_OPERATION])
  {
    assert Holds(t, 1, 8) && t.operations[1].state == OpRetrying;
    assert t.operations[1 := RACE_OPERATION.(state := OpSucceeded)] == map[1 := RACE_OPERATION.(state := OpSucceeded), 2 := SECOND_OPERATION];
    assert t.events[1 := FIRST_DONE] == map[1 := FIRST_DONE, 2 := SECOND_HELD];
  }

  lemma FirstSucceeds(both: World)
    requires both == Working(Projected(FIRST_HELD, 8, DOOMED, false), Projected(SECOND_HELD, 9, DOOMED, true))
    ensures Enabled(both, FinishEvent(7)) && Next(both, FinishEvent(7)) == HALF_DONE
  {
    FirstFinishes(both.tables);
    var v := Next(both, FinishEvent(7));
    assert v.tables == Finish(both.tables, FIRST_HELD, 8, DOOMED, false, 1);
    assert v.workers == HALF_DONE.workers;
  }

  lemma HalfDoneIsReachable()
    ensures Reachable(HALF_DONE) && ArchivedIn(HALF_DONE, 0) && Holding(HALF_DONE, 9)
  {
    BothCall();
    var both := Working(Projected(FIRST_HELD, 8, DOOMED, false), Projected(SECOND_HELD, 9, DOOMED, true));
    FirstSucceeds(both);
    ReachableStep(both, FinishEvent(7));
  }

  /**
    A run in which archiving is undone: a deletion fails once, a second one is requested,
    two workers carry out both, and the failure of the second is recorded after the
    success of the first.
  */
  lemma UnarchivingIsReachable() returns (w: World)
    ensures Reachable(w) && ArchivedIn(w, 0)
    ensures Enabled(w, FinishEvent(9)) && Unarchives(w, FinishEvent(9), 0)
    ensures Reachable(Next(w, FinishEvent(9))) && 0 in Next(w, FinishEvent(9)).tables.records && !ArchivedIn(Next(w, FinishEvent(9)), 0)
  {
    HalfDoneIsReachable();
    w := HALF_DONE;
    FinishUnarchivesIff(w, FinishEvent(9), 0);
    ReachableStep(w, FinishEvent(9));
  }

  const HEIR := CreateRequest(RACE_ADMIN, Workspace, ResourceInput("heir", "project", None, DesiredState(Some(WorkspaceDesired("ns", "spec")), None)), "k3", Ids(3, 3, 3))
  const HEIR_ROW := Record(3, Workspace, "heir", "ns", OfProject("project"), "project", "module", Some(WorkspaceKey("ns")),
                           HEIR.input.desired, 1, 0, Pending, Api, Plain, false, false, 1)

  lemma HeirIsCreated()
    ensures Enabled(HALF_DONE, HEIR) && Decide(HALF_DONE, HEIR) == Some(CommitWith(HEIR_ROW, "k3", 1, Request(1, Workspace, CreateVerb, None, Some(HEIR.input)), Apply, 1, HEIR.ids, 1))
  {
    assert !KeyTaken(HALF_DONE.tables, HEIR_ROW.activeKey, 3);
  }

  /** The same run with a new workspace in the freed namespace before the failure is recorded: the unique index keeps the old row archived. */
  lemma RefusalIsReachable() returns (w: World)
    ensures Reachable(w) && ArchivedIn(w, 0) && Enabled(w, FinishEvent(9)) && Holding(w, 9)
    ensures FinishRefused(w.tables, w.workers[9].row, w.workers[9].event, w.workers[9].failed)
    ensures Next(w, FinishEvent(9)).tables == w.tables
  {
    HalfDoneIsReachable();
    HeirIsCreated();
    ReachableStep(HALF_DONE, HEIR);
    w := Next(HALF_DONE, HEIR);
    var t, t' := HALF_DONE.tables, w.tables;
    assert t' == Write(t, Decide(HALF_DONE, HEIR).value);
    assert t'.records == t.records[3 := HEIR_ROW] && t'.events[2] == t.events[2];
    assert 3 in t'.records && t'.records[3].activeKey == w.workers[9].row.activeKey;
  }

  // ------------------------------------------------- two workspaces of one name

  function Twin(namespace: string, key: string, n: nat): Action {
    CreateRequest(RACE_ADMIN, Workspace, ResourceInput("twin", "project", None, DesiredState(Some(WorkspaceDesired(namespace, "spec")), None)), key, Ids(n, n, n))
  }

  function TwinRow(namespace: string, n: nat): Record {
    Record(n, Workspace, "twin", namespace, OfProject("project"), "project", "module", Some(WorkspaceKey(namespace)),
           Twin(namespace, "", n).input.desired, 1, 0, Pending, Api, Plain, false, false, 0)
  }

  const START := World(Tables(map[], map[], map[], map[], map[]), map[], map["project" := "module"], map[], {}, {}, 0)

  /** A twin is created where neither its namespace nor its request's key and IDs are in use. */
  lemma TwinIsCreated(w: World, namespace: string, key: string, n: nat)
    requires w.projects == START.projects && w.now == 0 && FreshIds(w.tables, Ids(n, n, n)) && (1, key) !in w.tables.opIndex
    requires !KeyTaken(w.tables, Some(WorkspaceKey(namespace)), n) && namespace != ""
    ensures Enabled(w, Twin(namespace, key, n))
    ensures Next(w, Twin(namespace, key, n)).tables.records == w.tables.records[n := TwinRow(namespace, n)]
  {
    var v := Decide(w, Twin(namespace, key, n)).value;
    assert v == CommitWith(TwinRow(namespace, n), key, 1, Request(1, Workspace, CreateVerb, None, Some(Twin(namespace, key, n).input)), Apply, 1, Ids(n, n, n), 0);
  }

  /** Two create requests suffice: the unique index looks at the namespace, the Engine at the name. */
  lemma ClashIsReachable() returns (w: World)
    ensures ReachableAlone(w) && Clash(w.tables, 1, 2) && !Converged(w)
  {
    var none: seq<Action> := [];
    assert OneProcessRun([START], none) && [START][|none|] == START;
    TwinIsCreated(START, "a", "k1", 1);
    ReachableAloneStep(START, Twin("a", "k1", 1));
    var w1 := Next(START, Twin("a", "k1", 1));
    SecondTwinFits(w1);
    TwinIsCreated(w1, "b", "k2", 2);
    ReachableAloneStep(w1, Twin("b", "k2", 2));
    w := Next(w1, Twin("b", "k2", 2));
    assert w.tables.records == map[1 := TwinRow("a", 1), 2 := TwinRow("b", 2)];
    ClashNeverConverges(w, 1, 2);
  }

  lemma SecondTwinFits(w1: World)
    requires Enabled(START, Twin("a", "k1", 1)) && w1 == Next(START, Twin("a", "k1", 1))
    ensures w1.projects == START.projects && w1.now == 0 && FreshIds(w1.tables, Ids(2, 2, 2)) && (1, "k2") !in w1.tables.opIndex
    ensures !KeyTaken(w1.tables, Some(WorkspaceKey("b")), 2)
  {
    TwinIsCreated(START, "a", "k1", 1);
    assert Decide(START, Twin("a", "k1", 1)).value.op.key == "k1";
    assert "k1" != "k2" && "a" != "b";
    assert w1.tables == Write(START.tables, Decide(START, Twin("a", "k1", 1)).value);
  }
}
