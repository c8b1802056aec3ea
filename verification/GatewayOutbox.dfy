/**
  Operations and outbox events, for any number of workers: the two tables move in
  lockstep and a finished event is frozen.
*/
module GatewayOutbox {
  import opened Prelude
  import opened GatewayModel
  import opened GatewaySteps

  /** How the state of an operation mirrors its event. */
  ghost predicate Lockstep(s: OpState, e: Event) {
    && e.attempts <= MAX_OUTBOX_ATTEMPTS
    && (s == OpPending <==> !e.processed && e.attempts == 0)
    && (s == OpRetrying <==> !e.processed && 1 <= e.attempts <= 2)
    && (s == OpSucceeded || s == OpFailed <==> e.processed)
  }

  ghost predicate EventsKeyed(t: Tables) {
    forall e :: e in t.events ==>
      && t.events[e].id == e
      && t.events[e].opId in t.eventIndex && t.eventIndex[t.events[e].opId] == e
  }

  /** Every operation has exactly one event, and the pair is in lockstep. */
  ghost predicate OperationsPaired(t: Tables) {
    && t.operations.Keys == t.eventIndex.Keys
    && forall o :: o in t.operations ==>
         && t.operations[o].id == o
         && t.eventIndex[o] in t.events
         && t.events[t.eventIndex[o]].opId == o
         && Lockstep(t.operations[o].state, t.events[t.eventIndex[o]])
  }

  /** (actor, key) names at most one operation. */
  ghost predicate KeysUnique(t: Tables) {
    && (forall k :: k in t.opIndex ==>
          t.opIndex[k] in t.operations && t.operations[t.opIndex[k]].actor == k.0 && t.operations[t.opIndex[k]].key == k.1)
    && (forall o :: o in t.operations ==>
          (t.operations[o].actor, t.operations[o].key) in t.opIndex
          && t.opIndex[(t.operations[o].actor, t.operations[o].key)] == o)
  }

  ghost predicate OutboxInv(t: Tables) {
    RowsKeyed(t) && EventsKeyed(t) && OperationsPaired(t) && KeysUnique(t)
  }

  // ------------------------------------------------------- the primitive writes

  lemma EnqueueKeepsEvents(t: Tables, v: Verdict)
    requires EventsKeyed(t) && v.Commit? && WellFormedCommit(t, v)
    ensures EventsKeyed(Write(t, v))
  {
    var t' := Write(t, v);
    forall e | e in t'.events
      ensures t'.events[e].id == e && t'.events[e].opId in t'.eventIndex && t'.eventIndex[t'.events[e].opId] == e
    {
      if e != v.event.id {
        assert t'.events[e] == t.events[e] && t.events[e].opId != v.op.id;
      }
    }
  }

  lemma EnqueueKeepsPairs(t: Tables, v: Verdict)
    requires OperationsPaired(t) && v.Commit? && WellFormedCommit(t, v)
    ensures OperationsPaired(Write(t, v))
  {
    var t' := Write(t, v);
    assert t'.operations.Keys == t.operations.Keys + {v.op.id};
    assert t'.eventIndex.Keys == t.eventIndex.Keys + {v.op.id};
    forall o | o in t'.operations
      ensures t'.operations[o].id == o && t'.eventIndex[o] in t'.events && t'.events[t'.eventIndex[o]].opId == o
      ensures Lockstep(t'.operations[o].state, t'.events[t'.eventIndex[o]])
    {
      if o != v.op.id {
        assert o in t.operations && t'.eventIndex[o] == t.eventIndex[o] && t.eventIndex[o] != v.event.id;
      }
    }
  }

  lemma EnqueueKeepsKeys(t: Tables, v: Verdict)
    requires KeysUnique(t) && v.Commit? && WellFormedCommit(t, v)
    ensures KeysUnique(Write(t, v))
  {
  }

  lemma EnqueueKeepsOutbox(t: Tables, v: Verdict)
    requires OutboxInv(t) && v.Commit? && WellFormedCommit(t, v)
    ensures OutboxInv(Write(t, v))
  {
    EnqueueKeepsEvents(t, v);
    EnqueueKeepsPairs(t, v);
    EnqueueKeepsKeys(t, v);
  }

  /** The event a worker still holds is the one its operation is paired with. */
  lemma SettleKeepsEvents(t: Tables, e: Event, s: OpState)
    requires EventsKeyed(t) && e.id in t.events && e.opId == t.events[e.id].opId
    ensures EventsKeyed(Settle(t, e, s))
  {
  }

  lemma SettleKeepsPairs(t: Tables, e: Event, s: OpState)
    requires OperationsPaired(t) && EventsKeyed(t)
    requires e.id in t.events && !t.events[e.id].processed && e.opId == t.events[e.id].opId
    requires Lockstep(s, e)
    ensures OperationsPaired(Settle(t, e, s))
  {
    var t' := Settle(t, e, s);
    assert t.eventIndex[e.opId] == e.id && e.opId in t.operations;
    assert Lockstep(t.operations[e.opId].state, t.events[e.id]);
    assert t'.operations.Keys == t.operations.Keys;
    forall o | o in t'.operations
      ensures t'.operations[o].id == o && t'.eventIndex[o] in t'.events && t'.events[t'.eventIndex[o]].opId == o
      ensures Lockstep(t'.operations[o].state, t'.events[t'.eventIndex[o]])
    {
      if o != e.opId {
        assert t.events[t.eventIndex[o]].opId == o && t.eventIndex[o] != e.id;
      }
    }
  }

  lemma SettleKeepsKeys(t: Tables, e: Event, s: OpState)
    requires KeysUnique(t)
    ensures KeysUnique(Settle(t, e, s))
  {
    var t' := Settle(t, e, s);
    assert t'.operations.Keys == t.operations.Keys;
    forall o | o in t'.operations
      ensures t'.operations[o].actor == t.operations[o].actor && t'.operations[o].key == t.operations[o].key
    {
    }
  }

  lemma SettleKeepsOutbox(t: Tables, e: Event, s: OpState)
    requires OutboxInv(t)
    requires e.id in t.events && !t.events[e.id].processed && e.opId == t.events[e.id].opId
    requires Lockstep(s, e)
    ensures OutboxInv(Settle(t, e, s))
  {
    SettleKeepsEvents(t, e, s);
    SettleKeepsPairs(t, e, s);
    SettleKeepsKeys(t, e, s);
  }

  lemma ClaimKeepsOutbox(t: Tables, id: Id, token: Token, now: Time)
    requires OutboxInv(t) && id in t.events
    ensures OutboxInv(ClaimRow(t, id, token, now))
  {
    var t' := ClaimRow(t, id, token, now);
    assert EventsKeyed(t');
    assert OperationsPaired(t');
  }

  lemma PutRowKeepsOutbox(t: Tables, r: Record)
    requires OutboxInv(t)
    ensures OutboxInv(PutRow(t, r))
  {
    assert OperationsPaired(PutRow(t, r));
  }

  lemma FinishKeepsOutbox(t: Tables, e: Event, token: Token, copy: Record, failed: bool, now: Time)
    requires OutboxInv(t)
    ensures OutboxInv(Finish(t, e, token, copy, failed, now))
  {
    if Holds(t, e.id, token) && !FinishRefused(t, copy, e, failed) {
      var claimed := t.events[e.id];
      assert claimed.opId in t.operations && claimed.attempts <= 2;
      var settled: Tables;
      if failed {
        SettleKeepsOutbox(t, FailedAttempt(claimed, now), FailedOpState(claimed));
        settled := Settle(t, FailedAttempt(claimed, now), FailedOpState(claimed));
      } else {
        SettleKeepsOutbox(t, claimed.(processed := true, claim := None), OpSucceeded);
        settled := Settle(t, claimed.(processed := true, claim := None), OpSucceeded);
      }
      if MayFinishRow(t, copy, e) {
        PutRowKeepsOutbox(settled, FinishedRow(t.records[copy.id], copy, e, failed, claimed.attempts, now));
      }
    }
  }

  lemma DiscardKeepsOutbox(t: Tables, e: Event, token: Token)
    requires OutboxInv(t)
    ensures OutboxInv(Discard(t, e, token))
  {
    if Holds(t, e.id, token) {
      SettleKeepsOutbox(t, t.events[e.id].(processed := true, claim := None), OpFailed);
    }
  }

  lemma FailKeepsOutbox(t: Tables, e: Event, token: Token, now: Time)
    requires OutboxInv(t)
    ensures OutboxInv(FailEvent(t, e, token, now))
  {
    if Holds(t, e.id, token) {
      var stored := t.events[e.id];
      assert stored.opId in t.operations && stored.attempts <= 2;
      SettleKeepsOutbox(t, FailedAttempt(stored, now), FailedOpState(stored));
    }
  }

  lemma RequestKeepsOutbox(w: World, a: Action)
    requires Enabled(w, a) && OutboxInv(w.tables) && IsRequest(a) && Decide(w, a).Some?
    ensures OutboxInv(Write(w.tables, Decide(w, a).value))
  {
    RequestsAreWellFormed(w, a);
    var v := Decide(w, a).value;
    if v.Commit? {
      EnqueueKeepsOutbox(w.tables, v);
    }
  }

  lemma BackgroundKeepsOutbox(w: World, a: Action)
    requires Enabled(w, a) && OutboxInv(w.tables) && !IsRequest(a)
    ensures OutboxInv(BackgroundTables(w, a))
  {
    match a
    case MissingRow(copy) =>
      if MarkMissing(w.tables, copy, w.now) != w.tables {
        PutRowKeepsOutbox(w.tables, MarkMissing(w.tables, copy, w.now).records[copy.id]);
      }
    case Discover(row) => PutRowKeepsOutbox(w.tables, row);
    case ClaimEvent(_, token, event) => ClaimKeepsOutbox(w.tables, event, token, w.now);
    case FinishEvent(worker) =>
      var phase := w.workers[worker];
      FinishKeepsOutbox(w.tables, phase.event, phase.token, phase.row, phase.failed, w.now);
    case DiscardEvent(worker) => DiscardKeepsOutbox(w.tables, w.workers[worker].event, w.workers[worker].token);
    case FailClaim(worker) => FailKeepsOutbox(w.tables, w.workers[worker].event, w.workers[worker].token, w.now);
    case _ =>
  }

  lemma NextKeepsOutbox(w: World, a: Action)
    requires Enabled(w, a) && OutboxInv(w.tables)
    ensures OutboxInv(Next(w, a).tables)
  {
    if !IsRequest(a) {
      BackgroundKeepsOutbox(w, a);
    } else if Decide(w, a).Some? {
      RequestKeepsOutbox(w, a);
    }
  }

  // -------------------------------------------------------- history of one pair

  /** What one step may do to an event: its identity is fixed, a processed row is frozen. */
  ghost predicate EventAdvances(before: Event, after: Event) {
    && after.id == before.id && after.opId == before.opId && after.resourceId == before.resourceId
    && after.action == before.action && after.desiredRevision == before.desiredRevision
    && before.attempts <= after.attempts <= before.attempts + 1
    && (before.processed ==> after == before)
  }

  /** What one step may do to an operation: only its state moves, and never out of a terminal one. */
  ghost predicate OperationAdvances(before: Operation, after: Operation) {
    && after == before.(state := after.state)
    && (before.state == OpSucceeded || before.state == OpFailed ==> after == before)
    && (before.state == OpRetrying ==> after.state != OpPending)
  }

  ghost predicate HistoryGrows(t: Tables, t': Tables) {
    && t.events.Keys <= t'.events.Keys && t.operations.Keys <= t'.operations.Keys
    && t.opIndex.Keys <= t'.opIndex.Keys
    && (forall e :: e in t.events ==> EventAdvances(t.events[e], t'.events[e]))
    && (forall o :: o in t.operations ==> OperationAdvances(t.operations[o], t'.operations[o]))
    && (forall k :: k in t.opIndex ==> t'.opIndex[k] == t.opIndex[k])
  }

  lemma UnchangedGrows(t: Tables, t': Tables)
    requires t'.operations == t.operations && t'.opIndex == t.opIndex && t'.events == t.events
    ensures HistoryGrows(t, t')
  {
  }

  lemma EnqueueGrows(t: Tables, v: Verdict)
    requires v.Commit? && WellFormedCommit(t, v)
    ensures HistoryGrows(t, Write(t, v))
  {
  }

  lemma SettleGrows(t: Tables, e: Event, s: OpState)
    requires OperationsPaired(t) && EventsKeyed(t)
    requires e.id in t.events && EventAdvances(t.events[e.id], e) && s != OpPending
    ensures HistoryGrows(t, Settle(t, e, s))
  {
  }

  lemma ClaimGrows(t: Tables, id: Id, token: Token, now: Time)
    requires id in t.events
    ensures t.events[id].processed || HistoryGrows(t, ClaimRow(t, id, token, now))
  {
  }

  lemma FinishGrows(t: Tables, e: Event, token: Token, copy: Record, failed: bool, now: Time)
    requires OutboxInv(t)
    ensures HistoryGrows(t, Finish(t, e, token, copy, failed, now))
  {
    if Holds(t, e.id, token) && !FinishRefused(t, copy, e, failed) {
      var stored := t.events[e.id];
      if failed {
        SettleGrows(t, FailedAttempt(stored, now), FailedOpState(stored));
      } else {
        SettleGrows(t, stored.(processed := true, claim := None), OpSucceeded);
      }
    }
  }

  lemma DiscardGrows(t: Tables, e: Event, token: Token)
    requires OutboxInv(t)
    ensures HistoryGrows(t, Discard(t, e, token))
  {
    if Holds(t, e.id, token) {
      SettleGrows(t, t.events[e.id].(processed := true, claim := None), OpFailed);
    }
  }

  lemma FailGrows(t: Tables, e: Event, token: Token, now: Time)
    requires OutboxInv(t)
    ensures HistoryGrows(t, FailEvent(t, e, token, now))
  {
    if Holds(t, e.id, token) {
      SettleGrows(t, FailedAttempt(t.events[e.id], now), FailedOpState(t.events[e.id]));
    }
  }

  lemma RequestGrows(w: World, a: Action)
    requires Enabled(w, a) && OutboxInv(w.tables) && IsRequest(a) && Decide(w, a).Some?
    ensures HistoryGrows(w.tables, Write(w.tables, Decide(w, a).value))
  {
    RequestsAreWellFormed(w, a);
    var v := Decide(w, a).value;
    if v.Commit? {
      EnqueueGrows(w.tables, v);
    }
  }

  lemma BackgroundGrows(w: World, a: Action)
    requires Enabled(w, a) && OutboxInv(w.tables) && !IsRequest(a)
    ensures HistoryGrows(w.tables, BackgroundTables(w, a))
  {
    var t' := BackgroundTables(w, a);
    if a.FinishEvent? {
      var phase := w.workers[a.worker];
      FinishGrows(w.tables, phase.event, phase.token, phase.row, phase.failed, w.now);
    } else if a.DiscardEvent? {
      DiscardGrows(w.tables, w.workers[a.worker].event, w.workers[a.worker].token);
    } else if a.FailClaim? {
      FailGrows(w.tables, w.workers[a.worker].event, w.workers[a.worker].token, w.now);
    } else if a.ClaimEvent? {
      ClaimGrows(w.tables, a.event, a.token, w.now);
    } else {
      UnchangedGrows(w.tables, t');
    }
  }

  lemma NextGrows(w: World, a: Action)
    requires Enabled(w, a) && OutboxInv(w.tables)
    ensures HistoryGrows(w.tables, Next(w, a).tables)
  {
    if !IsRequest(a) {
      BackgroundGrows(w, a);
    } else if Decide(w, a).Some? {
      RequestGrows(w, a);
    } else {
      UnchangedGrows(w.tables, NextTables(w, a));
    }
  }
}
