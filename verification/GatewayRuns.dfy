/**
  Whole runs of the gateway with any number of workers: what lockstep, the
  fences and the idempotency keys promise from the empty tables onwards.
*/
module GatewayRuns {
  import opened GatewayModel
  import opened GatewaySteps
  import opened GatewayOutbox
  import opened GatewayFencing

  ghost predicate Sound(w: World) {
    OutboxInv(w.tables) && FenceInv(w)
  }

  lemma {:induction false} RunIsSound(ws: seq<World>, acts: seq<Action>, k: nat)
    requires IsRun(ws, acts) && Init(ws[0]) && k < |ws|
    ensures Sound(ws[k])
  {
    if k > 0 {
      RunIsSound(ws, acts, k - 1);
      assert StepAt(ws, acts, k - 1);
      NextKeepsOutbox(ws[k - 1], acts[k - 1]);
      NextKeepsFence(ws[k - 1], acts[k - 1]);
    }
  }

  /** Some run from the empty tables ends in this world. */
  ghost predicate Reachable(w: World) {
    exists ws: seq<World>, acts: seq<Action> :: IsRun(ws, acts) && Init(ws[0]) && ws[|acts|] == w
  }

  /** A run goes on with any enabled action. */
  lemma RunGoesOn(ws: seq<World>, acts: seq<Action>, a: Action)
    requires IsRun(ws, acts) && Enabled(ws[|acts|], a)
    ensures IsRun(ws + [Next(ws[|acts|], a)], acts + [a])
  {
    var vs, bs := ws + [Next(ws[|acts|], a)], acts + [a];
    forall i: nat | i < |bs|
      ensures StepAt(vs, bs, i)
    {
      assert i < |acts| ==> StepAt(ws, acts, i);
    }
  }

  lemma ReachableStep(w: World, a: Action)
    requires Reachable(w) && Enabled(w, a)
    ensures Reachable(Next(w, a))
  {
    var ws, acts :| IsRun(ws, acts) && Init(ws[0]) && ws[|acts|] == w;
    RunGoesOn(ws, acts, a);
  }

  lemma InitIsReachable(w: World)
    requires Init(w)
    ensures Reachable(w)
  {
    assert IsRun([w], []);
  }

  lemma StepIsFenced(ws: seq<World>, acts: seq<Action>, k: nat)
    requires IsRun(ws, acts) && Init(ws[0]) && k < |acts|
    ensures Sound(ws[k]) && FenceStep(ws[k], acts[k], ws[k + 1])
  {
    RunIsSound(ws, acts, k);
    assert StepAt(ws, acts, k);
    NextIsFenceStep(ws[k], acts[k]);
  }

  /** Later tables keep every operation and event; finished ones are kept unchanged. */
  ghost predicate Extends(t: Tables, t': Tables) {
    && (forall e :: e in t.events ==>
          && e in t'.events
          && t'.events[e].opId == t.events[e].opId && t'.events[e].resourceId == t.events[e].resourceId
          && t'.events[e].action == t.events[e].action && t'.events[e].desiredRevision == t.events[e].desiredRevision
          && t.events[e].attempts <= t'.events[e].attempts
          && (t.events[e].processed ==> t'.events[e] == t.events[e]))
    && (forall o :: o in t.operations ==>
          && o in t'.operations
          && t'.operations[o] == t.operations[o].(state := t'.operations[o].state)
          && (t.operations[o].state == OpSucceeded || t.operations[o].state == OpFailed ==> t'.operations[o] == t.operations[o]))
    && (forall k :: k in t.opIndex ==> k in t'.opIndex && t'.opIndex[k] == t.opIndex[k])
  }

  lemma GrowthExtends(t: Tables, t': Tables)
    requires HistoryGrows(t, t')
    ensures Extends(t, t')
  {
    forall e | e in t.events
      ensures e in t'.events && EventAdvances(t.events[e], t'.events[e])
    {
    }
    forall o | o in t.operations
      ensures o in t'.operations && OperationAdvances(t.operations[o], t'.operations[o])
    {
    }
  }

  lemma ExtendsTransitive(t0: Tables, t1: Tables, t2: Tables)
    requires Extends(t0, t1) && Extends(t1, t2)
    ensures Extends(t0, t2)
  {
  }

  lemma StepExtends(ws: seq<World>, acts: seq<Action>, j: nat)
    requires IsRun(ws, acts) && Init(ws[0]) && j < |acts|
    ensures Extends(ws[j].tables, ws[j + 1].tables)
  {
    RunIsSound(ws, acts, j);
    assert StepAt(ws, acts, j);
    NextGrows(ws[j], acts[j]);
    GrowthExtends(ws[j].tables, ws[j + 1].tables);
  }

  lemma {:induction false} RunExtends(ws: seq<World>, acts: seq<Action>, i: nat, j: nat)
    requires IsRun(ws, acts) && Init(ws[0]) && i <= j < |ws|
    ensures Extends(ws[i].tables, ws[j].tables)
    decreases j
  {
    if i < j {
      RunExtends(ws, acts, i, j - 1);
      StepExtends(ws, acts, j - 1);
      ExtendsTransitive(ws[i].tables, ws[j - 1].tables, ws[j].tables);
    }
  }

  /**
    Over a whole run every operation keeps exactly one event and mirrors its
    progress, at most three attempts are made, and a terminal pair never changes
    again.
  */
  lemma OperationFollowsItsEvent(ws: seq<World>, acts: seq<Action>, i: nat, j: nat, o: Id)
    requires IsRun(ws, acts) && Init(ws[0]) && i <= j < |ws| && o in ws[i].tables.operations
    ensures var t := ws[i].tables; var t' := ws[j].tables;
            && o in t.eventIndex && t.eventIndex[o] in t.events && t.events[t.eventIndex[o]].opId == o
            && (forall e :: e in t.events && t.events[e].opId == o ==> e == t.eventIndex[o])
            && t.events[t.eventIndex[o]].attempts <= MAX_OUTBOX_ATTEMPTS
            && (t.operations[o].state == OpPending <==> !t.events[t.eventIndex[o]].processed && t.events[t.eventIndex[o]].attempts == 0)
            && (t.operations[o].state == OpRetrying <==> !t.events[t.eventIndex[o]].processed && 0 < t.events[t.eventIndex[o]].attempts)
            && (t.operations[o].state in {OpSucceeded, OpFailed} <==> t.events[t.eventIndex[o]].processed)
    ensures o in ws[j].tables.operations
    ensures ws[i].tables.operations[o].state in {OpSucceeded, OpFailed} ==>
              ws[j].tables.operations[o] == ws[i].tables.operations[o]
              && ws[i].tables.eventIndex[o] in ws[j].tables.events
              && ws[j].tables.events[ws[i].tables.eventIndex[o]] == ws[i].tables.events[ws[i].tables.eventIndex[o]]
  {
    RunIsSound(ws, acts, i);
    RunExtends(ws, acts, i, j);
    assert Lockstep(ws[i].tables.operations[o].state, ws[i].tables.events[ws[i].tables.eventIndex[o]]);
  }

  /** Step `i` of the run marks event `e` processed. */
  ghost predicate ProcessesAt(ws: seq<World>, i: nat, e: Id) {
    && i + 1 < |ws|
    && e in ws[i].tables.events && !ws[i].tables.events[e].processed
    && e in ws[i + 1].tables.events && ws[i + 1].tables.events[e].processed
  }

  /** Every event is marked processed at most once, and by the worker that holds it at that moment. */
  lemma ProcessedOnce(ws: seq<World>, acts: seq<Action>, i: nat, e: Id)
    requires IsRun(ws, acts) && Init(ws[0]) && ProcessesAt(ws, i, e)
    ensures forall j: nat :: i < j ==> !ProcessesAt(ws, j, e)
    ensures Settles(acts[i]) && Holding(ws[i], acts[i].worker) && ws[i].workers[acts[i].worker].event.id == e
  {
    forall j: nat | i < j
      ensures !ProcessesAt(ws, j, e)
    {
      if j < |ws| {
        RunExtends(ws, acts, i + 1, j);
      }
    }
    assert Settles(acts[i]) && Holding(ws[i], acts[i].worker) && ws[i].workers[acts[i].worker].event.id == e by {
      StepIsFenced(ws, acts, i);
      OnlyHoldersProcess(ws[i], acts[i], ws[i + 1], e);
    }
  }

  lemma {:induction false} TokensGrow(ws: seq<World>, acts: seq<Action>, i: nat, j: nat)
    requires IsRun(ws, acts) && i <= j < |ws|
    ensures ws[i].tokens <= ws[j].tokens
    decreases j
  {
    if i < j {
      TokensGrow(ws, acts, i, j - 1);
      assert StepAt(ws, acts, j - 1);
    }
  }

  /** A worker carrying an old token was carrying it before this step too. */
  lemma TokenIsOld(w: World, a: Action, w': World, i: WorkerId, token: Token)
    requires WorkersMove(w, a, w') && token in w.tokens
    requires i in w'.workers && w'.workers[i].token == token
    ensures i in w.workers && w.workers[i].token == token
  {
  }

  lemma {:induction false} FencedStays(ws: seq<World>, acts: seq<Action>, i: nat, j: nat, worker: WorkerId)
    requires IsRun(ws, acts) && Init(ws[0]) && i <= j < |ws|
    requires worker in ws[i].workers && !Holding(ws[i], worker)
    requires worker in ws[j].workers && ws[j].workers[worker].token == ws[i].workers[worker].token
    ensures !Holding(ws[j], worker)
    decreases j
  {
    if i < j {
      var token := ws[i].workers[worker].token;
      assert token in ws[j - 1].tokens by {
        RunIsSound(ws, acts, i);
        TokensGrow(ws, acts, i, j - 1);
      }
      StepIsFenced(ws, acts, j - 1);
      TokenIsOld(ws[j - 1], acts[j - 1], ws[j], worker, token);
      FencedStays(ws, acts, i, j - 1, worker);
      LostStaysLost(ws[j - 1], acts[j - 1], ws[j], worker);
    }
  }

  /**
    A worker fenced off once stays fenced: as long as it works under the same
    token, nothing it does changes the tables.
  */
  lemma FencedForGood(ws: seq<World>, acts: seq<Action>, i: nat, j: nat, worker: WorkerId)
    requires IsRun(ws, acts) && Init(ws[0]) && i <= j < |acts|
    requires worker in ws[i].workers && !Holding(ws[i], worker)
    requires worker in ws[j].workers && ws[j].workers[worker].token == ws[i].workers[worker].token
    requires acts[j] in {FinishEvent(worker), DiscardEvent(worker), FailClaim(worker)}
    ensures ws[j + 1].tables == ws[j].tables
  {
    FencedStays(ws, acts, i, j, worker);
    assert StepAt(ws, acts, j);
    FencedWritesNothing(ws[j], acts[j], worker);
  }
}
