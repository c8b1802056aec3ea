/**
  Claim tokens as fences: with any number of workers, clocks advancing and leases
  running out, at most one worker holds an event, a worker that lost its event can
  never write again, and an event is processed at most once.
*/
module GatewayFencing {
  import opened Prelude
  import opened GatewayModel
  import opened GatewaySteps
  import opened GatewayOutbox

  ghost predicate Carries(t: Tables, e: Id, token: Token) {
    e in t.events && t.events[e].claim.Some? && t.events[e].claim.value.token == token
  }

  /** Worker `i` still holds the event it claimed. */
  ghost predicate Holding(w: World, i: WorkerId) {
    i in w.workers && Holds(w.tables, w.workers[i].event.id, w.workers[i].token)
  }

  ghost predicate TokensDrawn(w: World) {
    && (forall i :: i in w.workers ==> w.workers[i].token in w.tokens)
    && (forall e :: e in w.tables.events && w.tables.events[e].claim.Some? ==> w.tables.events[e].claim.value.token in w.tokens)
  }

  ghost predicate TokensDistinct(w: World) {
    && (forall i, j :: i in w.workers && j in w.workers && i != j ==> w.workers[i].token != w.workers[j].token)
    && (forall i, e :: i in w.workers && Carries(w.tables, e, w.workers[i].token) ==> e == w.workers[i].event.id)
  }

  /** The worker's copy of its event agrees with the row on every immutable column. */
  ghost predicate CopiesAgree(w: World) {
    forall i :: i in w.workers ==>
      && w.workers[i].event.id in w.tables.events
      && w.workers[i].event.action == w.tables.events[w.workers[i].event.id].action
      && w.workers[i].event.resourceId == w.tables.events[w.workers[i].event.id].resourceId
      && w.workers[i].event.desiredRevision == w.tables.events[w.workers[i].event.id].desiredRevision
  }

  ghost predicate FenceInv(w: World) {
    TokensDrawn(w) && TokensDistinct(w) && CopiesAgree(w)
  }

  // ------------------------------------------------- which events a step touches

  predicate Settles(a: Action) {
    a.FinishEvent? || a.DiscardEvent? || a.FailClaim?
  }

  /** The event a step may change: the one claimed, or the one a holder settles. */
  ghost function Touched(w: World, a: Action): set<Id> {
    if a.ClaimEvent? then {a.event}
    else if Settles(a) && Holding(w, a.worker) then {w.workers[a.worker].event.id}
    else {}
  }

  /** Other events keep their rows, and new events are unclaimed. */
  ghost predicate OnlyTouches(t: Tables, t': Tables, ids: set<Id>) {
    && (forall e :: e in t.events ==> e in t'.events)
    && (forall e :: e in t.events && e !in ids ==> t'.events[e] == t.events[e])
    && (forall e :: e in t'.events && e !in t.events ==> t'.events[e].claim.None? && !t'.events[e].processed)
  }

  lemma WriteTouchesNothing(t: Tables, v: Verdict)
    requires WellFormedCommit(t, v)
    ensures OnlyTouches(t, Write(t, v), {})
  {
  }

  lemma RequestTouchesNothing(w: World, a: Action)
    requires Enabled(w, a) && IsRequest(a) && IndexSound(w.tables) && RowsKeyed(w.tables)
    ensures OnlyTouches(w.tables, NextTables(w, a), {})
  {
    if Decide(w, a).Some? {
      RequestsAreWellFormed(w, a);
      WriteTouchesNothing(w.tables, Decide(w, a).value);
    }
  }

  lemma SettleTouchesOne(t: Tables, e: Event, s: OpState)
    requires e.id in t.events
    ensures OnlyTouches(t, Settle(t, e, s), {e.id}) && Settle(t, e, s).events[e.id] == e
  {
  }

  /** A settling transaction touches its event when it holds it and clears the claim, or it is rolled back. */
  ghost predicate SettledOne(t: Tables, t': Tables, id: Id, token: Token) {
    t' == t || (Holds(t, id, token) && OnlyTouches(t, t', {id}) && t'.events[id].claim.None?)
  }

  lemma FinishTouchesOne(t: Tables, e: Event, token: Token, copy: Record, failed: bool, now: Time)
    requires EventsKeyed(t)
    ensures SettledOne(t, Finish(t, e, token, copy, failed, now), e.id, token)
  {
    if Holds(t, e.id, token) && !FinishRefused(t, copy, e, failed) {
      var claimed := t.events[e.id];
      if failed {
        SettleTouchesOne(t, FailedAttempt(claimed, now), FailedOpState(claimed));
      } else {
        SettleTouchesOne(t, claimed.(processed := true, claim := None), OpSucceeded);
      }
    }
  }

  lemma DiscardTouchesOne(t: Tables, e: Event, token: Token)
    requires EventsKeyed(t)
    ensures SettledOne(t, Discard(t, e, token), e.id, token)
  {
    if Holds(t, e.id, token) {
      SettleTouchesOne(t, t.events[e.id].(processed := true, claim := None), OpFailed);
    }
  }

  lemma FailTouchesOne(t: Tables, e: Event, token: Token, now: Time)
    requires EventsKeyed(t)
    ensures SettledOne(t, FailEvent(t, e, token, now), e.id, token)
  {
    if Holds(t, e.id, token) {
      SettleTouchesOne(t, FailedAttempt(t.events[e.id], now), FailedOpState(t.events[e.id]));
    }
  }

  /** A holder that settles its event gives the claim up, unless its transaction is rolled back. */
  ghost predicate Releases(w: World, a: Action, t': Tables) {
    Settles(a) && Holding(w, a.worker) ==>
      var id := w.workers[a.worker].event.id;
      id in t'.events && (t'.events[id].claim.None? || t'.events[id] == w.tables.events[id])
  }

  lemma SettlingTouches(w: World, a: Action)
    requires Enabled(w, a) && EventsKeyed(w.tables) && Settles(a)
    ensures OnlyTouches(w.tables, BackgroundTables(w, a), Touched(w, a)) && Releases(w, a, BackgroundTables(w, a))
  {
    var phase := w.workers[a.worker];
    if a.FinishEvent? {
      FinishTouchesOne(w.tables, phase.event, phase.token, phase.row, phase.failed, w.now);
    } else if a.DiscardEvent? {
      DiscardTouchesOne(w.tables, phase.event, phase.token);
    } else {
      FailTouchesOne(w.tables, phase.event, phase.token, w.now);
    }
  }

  lemma QuietTouches(w: World, a: Action)
    requires Enabled(w, a) && !IsRequest(a) && !Settles(a)
    ensures OnlyTouches(w.tables, BackgroundTables(w, a), Touched(w, a))
  {
    var t' := BackgroundTables(w, a);
    if a.ClaimEvent? {
      assert t' == ClaimRow(w.tables, a.event, a.token, w.now);
    } else {
      assert t'.events == w.tables.events;
    }
  }

  lemma NextTouches(w: World, a: Action)
    requires Enabled(w, a) && OutboxInv(w.tables)
    ensures OnlyTouches(w.tables, NextTables(w, a), Touched(w, a)) && Releases(w, a, NextTables(w, a))
  {
    if IsRequest(a) {
      RequestTouchesNothing(w, a);
    } else if Settles(a) {
      SettlingTouches(w, a);
    } else {
      QuietTouches(w, a);
    }
  }

  /** How the workers move: only a claim starts one, and no worker changes its event or token. */
  ghost predicate WorkersMove(w: World, a: Action, w': World) {
    && (forall i :: i in w'.workers && !(a.ClaimEvent? && i == a.worker) ==>
          i in w.workers && w'.workers[i].token == w.workers[i].token && w'.workers[i].event == w.workers[i].event)
    && (Settles(a) ==> a.worker !in w'.workers)
    && (a.ClaimEvent? ==> a.worker !in w.workers && a.token !in w.tokens && a.worker in w'.workers
                          && w'.workers[a.worker].token == a.token && w'.workers[a.worker].event.id == a.event)
    && w'.tokens == if a.ClaimEvent? then w.tokens + {a.token} else w.tokens
  }

  lemma NextMovesWorkers(w: World, a: Action)
    requires Enabled(w, a) && EventsKeyed(w.tables)
    ensures WorkersMove(w, a, Next(w, a))
  {
    var w' := Next(w, a);
    if a.CheckRow? {
      assert w'.workers == w.workers[a.worker := Checked(w.tables, w.workers[a.worker].event, w.workers[a.worker].token, a.unavailable)];
    } else if a.CallEngine? {
      assert w'.workers == w.workers[a.worker := Projected(w.workers[a.worker].event, w.workers[a.worker].token, w.workers[a.worker].row, a.failed)];
    } else if a.ClaimEvent? {
      assert w'.workers == w.workers[a.worker := Claimed(ClaimRow(w.tables, a.event, a.token, w.now).events[a.event], a.token)];
    } else if Settles(a) || a.Crash? {
      assert w'.workers == w.workers - {a.worker};
    } else {
      assert w'.workers == w.workers;
    }
  }

  /** The events table after a claim. */
  ghost predicate ClaimLands(w: World, a: Action, w': World) {
    a.ClaimEvent? ==>
      && a.event in w.tables.events && Claimable(w.tables.events[a.event], w.now)
      && w'.tables.events == w.tables.events[a.event := w.tables.events[a.event].(claim := Some(Claim(a.token, w.now + LEASE)))]
      && a.worker in w'.workers && w'.workers[a.worker].event == w'.tables.events[a.event]
  }

  lemma NextLandsClaims(w: World, a: Action)
    requires Enabled(w, a)
    ensures ClaimLands(w, a, Next(w, a))
  {
    if a.ClaimEvent? {
      assert Next(w, a).tables == ClaimRow(w.tables, a.event, a.token, w.now);
      assert Next(w, a).workers == NextWorkers(w, a);
    }
  }

  ghost predicate EventsAdvance(t: Tables, t': Tables) {
    forall e :: e in t.events ==> e in t'.events && EventAdvances(t.events[e], t'.events[e])
  }

  /** Everything this module needs to know about one step. */
  ghost predicate FenceStep(w: World, a: Action, w': World) {
    && OnlyTouches(w.tables, w'.tables, Touched(w, a)) && Releases(w, a, w'.tables)
    && EventsAdvance(w.tables, w'.tables)
    && WorkersMove(w, a, w')
    && ClaimLands(w, a, w')
  }

  lemma NextIsFenceStep(w: World, a: Action)
    requires Enabled(w, a) && OutboxInv(w.tables)
    ensures FenceStep(w, a, Next(w, a))
  {
    NextTouches(w, a);
    NextGrows(w, a);
    NextMovesWorkers(w, a);
    NextLandsClaims(w, a);
  }

  // ------------------------------------------------------------------ invariance

  lemma StepKeepsDrawn(w: World, a: Action, w': World)
    requires FenceStep(w, a, w') && TokensDrawn(w)
    ensures TokensDrawn(w')
  {
  }

  lemma StepKeepsDistinct(w: World, a: Action, w': World)
    requires FenceStep(w, a, w') && TokensDrawn(w) && TokensDistinct(w) && CopiesAgree(w)
    ensures TokensDistinct(w')
  {
    forall i, e | i in w'.workers && Carries(w'.tables, e, w'.workers[i].token)
      ensures e == w'.workers[i].event.id
    {
      var k := w'.workers[i].token;
      if a.ClaimEvent? && i == a.worker {
        assert e != a.event ==> Carries(w.tables, e, k);
      } else if !(a.ClaimEvent? && e == a.event) {
        assert Carries(w.tables, e, k);
      }
    }
  }

  lemma StepKeepsCopies(w: World, a: Action, w': World)
    requires FenceStep(w, a, w') && CopiesAgree(w)
    ensures CopiesAgree(w')
  {
    forall i | i in w'.workers
      ensures w'.workers[i].event.id in w'.tables.events
      ensures w'.workers[i].event.action == w'.tables.events[w'.workers[i].event.id].action
      ensures w'.workers[i].event.resourceId == w'.tables.events[w'.workers[i].event.id].resourceId
      ensures w'.workers[i].event.desiredRevision == w'.tables.events[w'.workers[i].event.id].desiredRevision
    {
      if !(a.ClaimEvent? && i == a.worker) {
        var id := w.workers[i].event.id;
        assert EventAdvances(w.tables.events[id], w'.tables.events[id]);
      }
    }
  }

  lemma NextKeepsFence(w: World, a: Action)
    requires Enabled(w, a) && OutboxInv(w.tables) && FenceInv(w)
    ensures FenceInv(Next(w, a))
  {
    NextIsFenceStep(w, a);
    var w' := Next(w, a);
    StepKeepsDrawn(w, a, w');
    StepKeepsDistinct(w, a, w');
    StepKeepsCopies(w, a, w');
  }

  // ------------------------------------------------- how a worker comes by its row

  predicate InFlight(phase: Phase) {
    phase.Ready? || phase.Projected?
  }

  /** How one worker's phase moves in a step, the row check included. */
  ghost predicate PhaseMoves(w: World, a: Action, w': World) {
    forall i :: i in w'.workers ==>
      || w'.workers[i].Claimed?
      || (a == CheckRow(i, false) && i in w.workers && w'.workers[i] == Checked(w.tables, w.workers[i].event, w.workers[i].token, false))
      || (i in w.workers && w'.workers[i].event == w.workers[i].event
          && (InFlight(w'.workers[i]) ==> InFlight(w.workers[i]) && w'.workers[i].row == w.workers[i].row))
  }

  lemma NextMovesPhases(w: World, a: Action)
    requires Enabled(w, a)
    ensures PhaseMoves(w, a, Next(w, a))
    ensures a.FinishEvent? ==> a.worker in w.workers && a.worker !in Next(w, a).workers
    ensures forall i :: i in Next(w, a).workers ==> i in w.workers || (a.ClaimEvent? && a.worker == i)
  {
    var w' := Next(w, a);
    assert w'.workers == NextWorkers(w, a);
    if a.CheckRow? && a.unavailable {
      assert Checked(w.tables, w.workers[a.worker].event, w.workers[a.worker].token, true).Failing?;
    }
  }

  /** A worker past its row check works on a copy that was unarchived when read. */
  ghost predicate CopiesLive(w: World) {
    forall i :: i in w.workers && InFlight(w.workers[i]) ==> !w.workers[i].row.archived
  }

  lemma NextKeepsCopiesLive(w: World, a: Action)
    requires Enabled(w, a) && CopiesLive(w)
    ensures CopiesLive(Next(w, a))
  {
    NextMovesPhases(w, a);
    var w' := Next(w, a);
    forall i | i in w'.workers && InFlight(w'.workers[i])
      ensures !w'.workers[i].row.archived
    {
      if a == CheckRow(i, false) && i in w.workers && w'.workers[i] == Checked(w.tables, w.workers[i].event, w.workers[i].token, false) {
        assert MayProject(w.tables.records[w.workers[i].event.resourceId], w.workers[i].event);
      }
    }
  }

  // ----------------------------------------------------------------- the fences

  /** Two workers never hold the same event. */
  lemma OneHolder(w: World, i: WorkerId, j: WorkerId)
    requires FenceInv(w) && Holding(w, i) && Holding(w, j) && w.workers[i].event.id == w.workers[j].event.id
    ensures i == j
  {
  }

  /** A worker without its claim writes nothing, whatever phase it is in. */
  lemma FencedWritesNothing(w: World, a: Action, i: WorkerId)
    requires Enabled(w, a) && i in w.workers && !Holding(w, i)
    requires a == FinishEvent(i) || a == DiscardEvent(i) || a == FailClaim(i)
    ensures Next(w, a).tables == w.tables
  {
  }

  /** The worker keeps working on the same claim across the step. */
  ghost predicate SameClaim(w: World, w': World, i: WorkerId) {
    i in w.workers && i in w'.workers && w'.workers[i].token == w.workers[i].token
  }

  /** A lost claim never comes back. */
  lemma LostStaysLost(w: World, a: Action, w': World, i: WorkerId)
    requires FenceStep(w, a, w') && FenceInv(w) && SameClaim(w, w', i)
    requires !Holding(w, i)
    ensures !Holding(w', i)
  {
    assert w'.workers[i].event == w.workers[i].event;
    assert EventAdvances(w.tables.events[w.workers[i].event.id], w'.tables.events[w.workers[i].event.id]);
  }

  /** An event is claimed anew only when the lease on it ran out. */
  lemma ReclaimedAfterExpiry(w: World, a: Action, w': World, i: WorkerId)
    requires FenceStep(w, a, w') && FenceInv(w) && i in w.workers && Holding(w, i)
    ensures a.ClaimEvent? && a.event == w.workers[i].event.id ==> w.tables.events[a.event].claim.value.until < w.now
  {
  }

  /** A step that settles an event leaves those of the workers that stay alone. */
  lemma SettlesOwnEvent(w: World, a: Action, i: WorkerId)
    requires FenceInv(w) && Holding(w, i) && (Settles(a) ==> a.worker != i)
    ensures !(a.ClaimEvent? && a.event == w.workers[i].event.id) ==> w.workers[i].event.id !in Touched(w, a)
  {
    assert Settles(a) && Holding(w, a.worker) ==> Carries(w.tables, w.workers[a.worker].event.id, w.workers[a.worker].token);
    assert Carries(w.tables, w.workers[i].event.id, w.workers[i].token);
  }

  /** A claim outlives every step but one: another worker claiming the event after the lease ran out. */
  lemma LostToExpiryOnly(w: World, a: Action, w': World, i: WorkerId)
    requires FenceStep(w, a, w') && FenceInv(w) && SameClaim(w, w', i) && Holding(w, i)
    ensures !(a.ClaimEvent? && a.event == w.workers[i].event.id) ==> Holding(w', i)
    ensures a.ClaimEvent? && a.event == w.workers[i].event.id ==> w.tables.events[a.event].claim.value.until < w.now
  {
    assert w'.workers[i].event == w.workers[i].event;
    ReclaimedAfterExpiry(w, a, w', i);
    SettlesOwnEvent(w, a, i);
  }

  /** Only the holder of an event processes it. */
  lemma OnlyHoldersProcess(w: World, a: Action, w': World, e: Id)
    requires FenceStep(w, a, w') && e in w.tables.events && !w.tables.events[e].processed
    requires e in w'.tables.events && w'.tables.events[e].processed
    ensures Settles(a) && Holding(w, a.worker) && w.workers[a.worker].event.id == e
  {
    assert e in Touched(w, a);
  }

  lemma BackgroundAddsNoEvent(w: World, a: Action)
    requires Enabled(w, a) && EventsKeyed(w.tables) && !IsRequest(a)
    ensures BackgroundTables(w, a).events.Keys <= w.tables.events.Keys
  {
    if Settles(a) {
      var phase := w.workers[a.worker];
      if a.FinishEvent? {
        assert Finish(w.tables, phase.event, phase.token, phase.row, phase.failed, w.now).events.Keys <= w.tables.events.Keys;
      }
    }
  }
}
