/**
  Convergence of the reconcile loop when no request arrives, the database answers,
  Engine calls succeed and nobody else writes the Engine. Two kinds of steps make
  progress: the repair loop enqueues an event for a row whose Engine object lags,
  and the worker takes one event from claim to finish. Each strictly decreases
  twice the number of lagging rows without a current event plus the number of open
  events, and where neither is possible the Engine shows every desired state.
*/
module GatewayConvergence {
  import opened Prelude
  import opened Descent
  import opened GatewayModel
  import opened GatewaySteps
  import opened GatewayOutbox
  import opened GatewayFencing
  import opened GatewayRevisions
  import opened GatewayHierarchy
  import opened GatewayEngine
  import opened GatewayIdentity
  import opened GatewayServed

  /** The repair loop sees work to do on this row. */
  predicate Lagging(w: World, id: Id) {
    && id in w.tables.records && Repairable(w.tables.records[id])
    && (Drifted(w.engine, w.tables.records[id]) || w.tables.records[id].appliedRevision < w.tables.records[id].desiredRevision)
  }

  predicate IsOpen(t: Tables, e: Id) {
    e in t.events && !t.events[e].processed
  }

  /** An open event that will project the present revision of the row. */
  predicate Current(t: Tables, id: Id, e: Id) {
    && IsOpen(t, e) && id in t.records
    && t.events[e].resourceId == id && t.events[e].action in {Apply, AdoptExisting}
    && t.events[e].desiredRevision == t.records[id].desiredRevision
  }

  ghost predicate Covered(t: Tables, id: Id) {
    exists e :: Current(t, id, e)
  }

  ghost function Uncovered(w: World): set<Id> {
    set id | id in w.tables.records && Lagging(w, id) && !Covered(w.tables, id)
  }

  ghost function Open(t: Tables): set<Id> {
    set e | e in t.events && IsOpen(t, e)
  }

  ghost function Measure(w: World): nat {
    2 * |Uncovered(w)| + |Open(w.tables)|
  }

  /** A workspace or application the API owns, live and not in deletion. */
  predicate ApiOwned(r: Record) {
    r.kind != Cluster && r.source == Api && !r.archived && r.syncState != Deleting
  }

  /**
    No open event, every deletion done, every API-owned row applied and shown by the Engine,
    and no object of an archived row left unless a live row goes by its name.
  */
  ghost predicate Converged(w: World) {
    && Open(w.tables) == {}
    && (forall id :: id in w.tables.records && ApiOwned(w.tables.records[id]) ==>
          w.tables.records[id].appliedRevision == w.tables.records[id].desiredRevision && Shows(w.engine, w.tables.records[id]))
    && (forall id :: !InDeletion(w, id))
    && NoLeftovers(w)
  }

  /** Everything is due: leases, retries and the back-off of failed rows have run out. */
  ghost predicate Due(w: World) {
    && (forall e :: IsOpen(w.tables, e) ==> Claimable(w.tables.events[e], w.now))
    && (forall id :: id in w.tables.records && w.tables.records[id].syncState == Failed ==>
          w.tables.records[id].updatedAt + REPAIR_BACKOFF <= w.now)
  }

  ghost predicate LiveWorkspace(t: Tables, id: Id) {
    id in t.records && t.records[id].kind == Workspace && !t.records[id].archived
  }

  /** Workspaces have Engine names of their own, and every desired state can be adapted. */
  ghost predicate Projectable(t: Tables) {
    && (forall id, other | id in t.records && other in t.records && id != other :: LiveWorkspace(t, id) && LiveWorkspace(t, other) ==>
          t.records[id].name != t.records[other].name)
    && (forall id :: id in t.records && Repairable(t.records[id]) ==> Adaptable(t.records[id]))
  }

  ghost predicate Sane(w: World) {
    Grounded(w) && IdentityInv(w) && FlightMatches(w) && Served(w) && EngineInv(w)
  }

  ghost predicate Quiet(w: World) {
    Sane(w) && w.workers == map[] && Due(w) && Projectable(w.tables)
  }

  // ------------------------------------------------------------------ effects

  /** What enqueuing a repair for a lagging row does. */
  ghost predicate RepairEffect(w: World, w': World, id: Id) {
    && w'.engine == w.engine && w'.now == w.now && w'.workers == map[]
    && w'.tables.records == w.tables.records
    && exists e :: e !in w.tables.events && e in w'.tables.events && w'.tables.events == w.tables.events[e := w'.tables.events[e]]
                   && Current(w'.tables, id, e) && Claimable(w'.tables.events[e], w'.now)
  }

  /** What one event taken from claim to finish does. */
  ghost predicate CycleEffect(w: World, w': World, e: Id) {
    && IsOpen(w.tables, e) && w.tables.events[e].resourceId in w.tables.records
    && w'.now == w.now && w'.workers == map[]
    && e in w'.tables.events && w'.tables.events == w.tables.events[e := w'.tables.events[e]] && w'.tables.events[e].processed
    && var r := w.tables.records[w.tables.events[e].resourceId];
       if MayProject(r, w.tables.events[e])
       then w'.tables.records == w.tables.records[r.id := FinishedRow(r, r, w.tables.events[e], false, w.tables.events[e].attempts, w.now)]
            && w'.engine == Project(w.engine, r, w.tables.events[e].action)
       else w'.tables.records == w.tables.records && w'.engine == w.engine
  }

  // --------------------------------------------------------- measure of a repair

  lemma RepairDecreases(w: World, w': World, id: Id)
    requires RepairEffect(w, w', id) && Lagging(w, id) && !Outstanding(w.tables, id)
    ensures Measure(w') == Measure(w) - 1
  {
    var e :| e !in w.tables.events && e in w'.tables.events && w'.tables.events == w.tables.events[e := w'.tables.events[e]]
             && Current(w'.tables, id, e) && Claimable(w'.tables.events[e], w'.now);
    assert Open(w'.tables) == Open(w.tables) + {e};
    forall other
      ensures other != id ==> (Covered(w'.tables, other) <==> Covered(w.tables, other))
    {
      if other != id {
        CoverageFrame(w.tables, w'.tables, other, e);
      }
    }
    assert id in Uncovered(w);
    assert Uncovered(w') == Uncovered(w) - {id};
  }

  /** Coverage of a row is untouched by an event about another row. */
  lemma CoverageFrame(t: Tables, t': Tables, id: Id, e: Id)
    requires (id in t.records <==> id in t'.records) && (id in t.records ==> t'.records[id].desiredRevision == t.records[id].desiredRevision)
    requires e in t'.events && t'.events == t.events[e := t'.events[e]]
    requires t'.events[e].resourceId != id && (e in t.events ==> t.events[e].resourceId != id)
    ensures Covered(t', id) <==> Covered(t, id)
  {
    if Covered(t, id) {
      var c :| Current(t, id, c);
      assert Current(t', id, c);
    }
    if Covered(t', id) {
      var c :| Current(t', id, c);
      assert Current(t, id, c);
    }
  }

  // ---------------------------------------------------------- measure of a cycle

  /** Rows with Engine objects of their own. */
  ghost predicate OwnObjects(t: Tables) {
    forall id, other | id in t.records && other in t.records && id != other :: HasObject(t, id) && HasObject(t, other) ==>
      ObjectKey(t.records[id]) != ObjectKey(t.records[other])
  }

  lemma QuietRowsOwnObjects(w: World)
    requires IdentityInv(w) && Projectable(w.tables)
    ensures OwnObjects(w.tables)
  {
    forall id, other | HasObject(w.tables, id) && HasObject(w.tables, other) && id != other
      ensures ObjectKey(w.tables.records[id]) != ObjectKey(w.tables.records[other])
    {
      assert Identified(w.tables.records[id]) && Identified(w.tables.records[other]);
      assert LiveWorkspace(w.tables, id) && LiveWorkspace(w.tables, other) ==> w.tables.records[id].name != w.tables.records[other].name;
    }
  }

  /** A row the finished event does not concern lags as before. */
  lemma OtherRowsLagAlike(w: World, w': World, e: Id, id: Id)
    requires CycleEffect(w, w', e) && OwnObjects(w.tables) && RowsKeyed(w.tables) && id in w.tables.records && id != w.tables.events[e].resourceId
    ensures id in w'.tables.records && w'.tables.records[id] == w.tables.records[id]
    ensures Lagging(w', id) <==> Lagging(w, id)
  {
    var r := w.tables.records[w.tables.events[e].resourceId];
    var own := w.tables.records[id];
    if Repairable(own) && MayProject(r, w.tables.events[e]) && r.kind != Cluster {
      assert HasObject(w.tables, id) && HasObject(w.tables, r.id);
      assert ObjectKey(own) != ObjectKey(r);
    }
  }

  /** After its event is projected, the row itself no longer lags. */
  lemma ProjectedRowIsSettled(w: World, w': World, e: Id)
    requires CycleEffect(w, w', e) && RowsKeyed(w.tables) && EventsHaveRows(w.tables)
    requires MayProject(w.tables.records[w.tables.events[e].resourceId], w.tables.events[e])
    ensures !Lagging(w', w.tables.events[e].resourceId)
  {
    var r := w.tables.records[w.tables.events[e].resourceId];
    var row := w'.tables.records[r.id];
    assert ObjectKey(row) == ObjectKey(r) && Projection(row) == Projection(r);
  }

  /** An event that may not be projected covers no lagging row. */
  lemma DiscardedEventCoversNothing(w: World, e: Id)
    requires IsOpen(w.tables, e) && w.tables.events[e].resourceId in w.tables.records
    requires !MayProject(w.tables.records[w.tables.events[e].resourceId], w.tables.events[e])
    requires Identified(w.tables.records[w.tables.events[e].resourceId]) && Lagging(w, w.tables.events[e].resourceId)
    ensures !Current(w.tables, w.tables.events[e].resourceId, e)
  {
  }

  lemma CycleUncoversNothing(w: World, w': World, e: Id, id: Id)
    requires CycleEffect(w, w', e) && RowsKeyed(w.tables) && IdentityInv(w) && Projectable(w.tables)
    requires id in Uncovered(w')
    ensures id in Uncovered(w)
  {
    QuietRowsOwnObjects(w);
    var resource := w.tables.events[e].resourceId;
    assert id in w.tables.records;
    if id != resource {
      OtherRowsLagAlike(w, w', e, id);
      assert w'.tables.events[e].resourceId != id || w'.tables.events[e].processed;
      CoverageOfOthers(w, w', e, id);
    } else if MayProject(w.tables.records[resource], w.tables.events[e]) {
      ProjectedRowIsSettled(w, w', e);
    } else {
      assert Identified(w.tables.records[resource]);
      DiscardedEventCoversNothing(w, e);
      forall c
        ensures !Current(w.tables, id, c)
      {
        assert !Current(w'.tables, id, c);
      }
    }
  }

  /** Processing an event about another row leaves a row covered as it was. */
  lemma CoverageOfOthers(w: World, w': World, e: Id, id: Id)
    requires CycleEffect(w, w', e) && id in w.tables.records && id in w'.tables.records && w'.tables.records[id] == w.tables.records[id]
    requires w.tables.events[e].resourceId != id
    ensures Covered(w.tables, id) ==> Covered(w'.tables, id)
  {
    if Covered(w.tables, id) {
      var c :| Current(w.tables, id, c);
      assert Current(w'.tables, id, c);
    }
  }

  lemma SubsetSize(a: set<Id>, b: set<Id>)
    requires a <= b
    ensures |a| <= |b|
  {
    assert b == a + (b - a);
  }

  lemma CycleDecreases(w: World, w': World, e: Id)
    requires CycleEffect(w, w', e) && RowsKeyed(w.tables) && IdentityInv(w) && Projectable(w.tables)
    ensures Measure(w') < Measure(w)
  {
    assert Open(w'.tables) == Open(w.tables) - {e};
    forall id | id in Uncovered(w')
      ensures id in Uncovered(w)
    {
      CycleUncoversNothing(w, w', e, id);
    }
    SubsetSize(Uncovered(w'), Uncovered(w));
  }

  // ----------------------------------------------------- the steps that make progress

  /** The repair loop's step for one row: read it, then enqueue. */
  ghost predicate RepairMove(w: World, w': World, id: Id, key: string, ids: Ids) {
    && Lagging(w, id) && !Outstanding(w.tables, id)
    && (w.tables.records[id].syncState == Failed ==> w.tables.records[id].updatedAt + REPAIR_BACKOFF <= w.now)
    && var w1 := Next(w, Load(id));
       && Enabled(w1, RepairRow(w.tables.records[id], key, ids))
       && w' == Next(w1, RepairRow(w.tables.records[id], key, ids))
  }

  /** The worker takes one event from claim to finish; the database answers and Engine calls succeed. */
  ghost predicate CycleMove(w: World, w': World, i: WorkerId, token: Token, e: Id) {
    && w.workers == map[] && Enabled(w, ClaimEvent(i, token, e))
    && var w1 := Next(w, ClaimEvent(i, token, e));
       && Enabled(w1, CheckRow(i, false))
       && var w2 := Next(w1, CheckRow(i, false));
          if Enabled(w2, DiscardEvent(i)) then w' == Next(w2, DiscardEvent(i))
          else
            && Enabled(w2, CallEngine(i, false, false))
            && var w3 := Next(w2, CallEngine(i, false, false));
               Enabled(w3, FinishEvent(i)) && w' == Next(w3, FinishEvent(i))
  }

  lemma SaneStep(w: World, a: Action)
    requires Enabled(w, a) && OneProcess(w, a) && Sane(w) && !a.FailClaim?
    ensures Sane(Next(w, a))
  {
    NextKeepsGrounded(w, a);
    NextKeepsIdentity(w, a);
    NextKeepsMatches(w, a);
    NextKeepsEngine(w, a);
    ServedKeptIff(w, a);
  }

  // ---------------------------------------------------- single steps, spelled out

  lemma LoadStep(w: World, id: Id)
    requires Enabled(w, Load(id))
    ensures Next(w, Load(id)) == w.(loaded := w.loaded + {w.tables.records[id]})
  {
  }

  lemma ClaimStep(w: World, i: WorkerId, token: Token, e: Id)
    requires Enabled(w, ClaimEvent(i, token, e))
    ensures var t1 := ClaimRow(w.tables, e, token, w.now);
            Next(w, ClaimEvent(i, token, e)) ==
              w.(tables := t1, workers := w.workers[i := Claimed(t1.events[e], token)], tokens := w.tokens + {token})
  {
  }

  lemma CheckStep(w: World, i: WorkerId)
    requires Enabled(w, CheckRow(i, false))
    ensures Next(w, CheckRow(i, false)) ==
              w.(workers := w.workers[i := Checked(w.tables, w.workers[i].event, w.workers[i].token, false)])
  {
  }

  lemma CallStep(w: World, i: WorkerId)
    requires Enabled(w, CallEngine(i, false, false))
    ensures var p := w.workers[i];
            Next(w, CallEngine(i, false, false)) ==
              w.(engine := Project(w.engine, p.row, p.event.action), workers := w.workers[i := Projected(p.event, p.token, p.row, false)])
  {
  }

  lemma FinishStep(w: World, i: WorkerId)
    requires Enabled(w, FinishEvent(i))
    ensures var p := w.workers[i];
            Next(w, FinishEvent(i)) == w.(tables := Finish(w.tables, p.event, p.token, p.row, p.failed, w.now), workers := w.workers - {i})
  {
  }

  lemma DiscardStep(w: World, i: WorkerId)
    requires Enabled(w, DiscardEvent(i))
    ensures Next(w, DiscardEvent(i)) == w.(tables := Discard(w.tables, w.workers[i].event, w.workers[i].token), workers := w.workers - {i})
  {
  }

  // -------------------------------------------------------- the effect of a repair

  lemma RepairWrites(w: World, copy: Record, key: string, ids: Ids)
    requires Enabled(w, RepairRow(copy, key, ids)) && RowsKeyed(w.tables)
    requires copy.id in w.tables.records && !Outstanding(w.tables, copy.id)
    ensures var t' := NextTables(w, RepairRow(copy, key, ids));
            && t'.records == w.tables.records
            && t'.events == w.tables.events[ids.event := NewEvent(ids.event, ids.op, copy.id, Apply, copy.desiredRevision, w.now)]
  {
    var v := Decide(w, RepairRow(copy, key, ids)).value;
    assert v.row == w.tables.records[copy.id];
    assert NextTables(w, RepairRow(copy, key, ids)) == Write(w.tables, v);
  }

  lemma RepairHasEffect(w: World, w': World, id: Id, key: string, ids: Ids)
    requires RowsKeyed(w.tables) && w.workers == map[] && RepairMove(w, w', id, key, ids)
    ensures RepairEffect(w, w', id)
  {
    LoadStep(w, id);
    RepairWrites(Next(w, Load(id)), w.tables.records[id], key, ids);
    assert Current(w'.tables, id, ids.event);
    assert ids.event !in w.tables.events && ids.event in w'.tables.events;
  }

  lemma RepairKeepsSane(w: World, w': World, id: Id, key: string, ids: Ids)
    requires Sane(w) && RepairMove(w, w', id, key, ids)
    ensures Sane(w')
  {
    SaneStep(w, Load(id));
    SaneStep(Next(w, Load(id)), RepairRow(w.tables.records[id], key, ids));
  }

  // --------------------------------------------------------- the effect of a cycle

  /** The world after claim and check, with the row as the worker saw it. */
  ghost predicate ClaimedAndChecked(w: World, w2: World, i: WorkerId, token: Token, e: Id) {
    && e in w.tables.events && IsOpen(w.tables, e) && w.tables.events[e].id == e && w.tables.events[e].resourceId in w.tables.records
    && w2.now == w.now && w2.engine == w.engine && w2.tables.records == w.tables.records
    && w2.tables.events == w.tables.events[e := w.tables.events[e].(claim := Some(Claim(token, w.now + LEASE)))]
    && w2.workers == map[i := Checked(w2.tables, w2.tables.events[e], token, false)]
  }

  lemma ClaimThenCheck(w: World, i: WorkerId, token: Token, e: Id)
    requires RowsKeyed(w.tables) && EventsKeyed(w.tables) && EventsHaveRows(w.tables) && w.workers == map[] && Enabled(w, ClaimEvent(i, token, e))
    ensures var w1 := Next(w, ClaimEvent(i, token, e));
            Enabled(w1, CheckRow(i, false)) && ClaimedAndChecked(w, Next(w1, CheckRow(i, false)), i, token, e)
  {
    ClaimStep(w, i, token, e);
    var w1 := Next(w, ClaimEvent(i, token, e));
    CheckStep(w1, i);
  }

  lemma DiscardEndsCycle(w: World, w2: World, w': World, i: WorkerId, token: Token, e: Id)
    requires ClaimedAndChecked(w, w2, i, token, e)
    requires !MayProject(w.tables.records[w.tables.events[e].resourceId], w.tables.events[e])
    requires w' == w2.(tables := Discard(w2.tables, w2.tables.events[e], token), workers := w2.workers - {i})
    ensures CycleEffect(w, w', e)
  {
  }

  lemma FinishEndsCycle(w: World, w2: World, w': World, i: WorkerId, token: Token, e: Id)
    requires ClaimedAndChecked(w, w2, i, token, e) && RowsKeyed(w.tables) && KeysDistinct(w.tables)
    requires var r := w.tables.records[w.tables.events[e].resourceId];
             && MayProject(r, w.tables.events[e])
             && w' == w2.(tables := Finish(w2.tables, w2.tables.events[e], token, r, false, w2.now),
                          engine := Project(w2.engine, r, w2.tables.events[e].action), workers := map[])
    ensures CycleEffect(w, w', e)
  {
    var r := w.tables.records[w.tables.events[e].resourceId];
    SameKeyIsFree(w2.tables, r);
    FinishWritesOneRow(w2.tables, w2.tables.events[e], token, r, false, w2.now);
  }

  lemma CycleHasEffect(w: World, w': World, i: WorkerId, token: Token, e: Id)
    requires RowsKeyed(w.tables) && EventsKeyed(w.tables) && EventsHaveRows(w.tables) && KeysDistinct(w.tables)
    requires CycleMove(w, w', i, token, e)
    ensures CycleEffect(w, w', e)
  {
    ClaimThenCheck(w, i, token, e);
    var w2 := Next(Next(w, ClaimEvent(i, token, e)), CheckRow(i, false));
    if w2.workers[i].Discarding? {
      DiscardStep(w2, i);
      DiscardEndsCycle(w, w2, w', i, token, e);
    } else {
      CallStep(w2, i);
      FinishStep(Next(w2, CallEngine(i, false, false)), i);
      assert w'.workers == map[];
      FinishEndsCycle(w, w2, w', i, token, e);
    }
  }

  lemma CycleKeepsSane(w: World, w': World, i: WorkerId, token: Token, e: Id)
    requires Sane(w) && CycleMove(w, w', i, token, e)
    ensures Sane(w')
  {
    var w1 := Next(w, ClaimEvent(i, token, e));
    var w2 := Next(w1, CheckRow(i, false));
    SaneStep(w, ClaimEvent(i, token, e));
    SaneStep(w1, CheckRow(i, false));
    if Enabled(w2, DiscardEvent(i)) {
      SaneStep(w2, DiscardEvent(i));
    } else {
      SaneStep(w2, CallEngine(i, false, false));
      SaneStep(Next(w2, CallEngine(i, false, false)), FinishEvent(i));
    }
  }

  // ------------------------------------------------------------ quiet stays quiet

  lemma RepairKeepsQuiet(w: World, w': World, id: Id)
    requires RepairEffect(w, w', id) && Due(w) && Projectable(w.tables)
    ensures Due(w') && Projectable(w'.tables)
  {
    forall id, other | id in w'.tables.records && other in w'.tables.records && id != other && LiveWorkspace(w'.tables, id) && LiveWorkspace(w'.tables, other)
      ensures w'.tables.records[id].name != w'.tables.records[other].name
    {
      assert LiveWorkspace(w.tables, id) && LiveWorkspace(w.tables, other);
    }
    forall e | IsOpen(w'.tables, e)
      ensures Claimable(w'.tables.events[e], w'.now)
    {
      assert e in w.tables.events ==> IsOpen(w.tables, e);
    }
  }

  lemma CycleKeepsQuiet(w: World, w': World, e: Id)
    requires CycleEffect(w, w', e) && RowsKeyed(w.tables) && EventsHaveRows(w.tables) && Due(w) && Projectable(w.tables)
    ensures Due(w') && Projectable(w'.tables)
  {
    var r := w.tables.records[w.tables.events[e].resourceId];
    forall id, other | id in w'.tables.records && other in w'.tables.records && id != other && LiveWorkspace(w'.tables, id) && LiveWorkspace(w'.tables, other)
      ensures w'.tables.records[id].name != w'.tables.records[other].name
    {
      assert LiveWorkspace(w.tables, id) && LiveWorkspace(w.tables, other);
    }
    forall id | id in w'.tables.records && Repairable(w'.tables.records[id])
      ensures Adaptable(w'.tables.records[id])
    {
      assert Repairable(w.tables.records[id]);
    }
    forall c | IsOpen(w'.tables, c)
      ensures Claimable(w'.tables.events[c], w'.now)
    {
      assert IsOpen(w.tables, c);
    }
  }

  ghost predicate Moves(w: World, w': World) {
    || (exists id, key, ids :: RepairMove(w, w', id, key, ids))
    || (exists i, token, e :: CycleMove(w, w', i, token, e))
  }

  /** A step of the loop keeps a quiet world quiet and strictly decreases the measure. */
  lemma MovesDecrease(w: World, w': World)
    requires Quiet(w) && Moves(w, w')
    ensures Quiet(w') && Measure(w') < Measure(w)
  {
    if id, key, ids :| RepairMove(w, w', id, key, ids) {
      RepairDecreasesQuietly(w, w', id, key, ids);
    } else {
      var i, token, e :| CycleMove(w, w', i, token, e);
      CycleDecreasesQuietly(w, w', i, token, e);
    }
  }

  lemma RepairDecreasesQuietly(w: World, w': World, id: Id, key: string, ids: Ids)
    requires Quiet(w) && RepairMove(w, w', id, key, ids)
    ensures Quiet(w') && Measure(w') < Measure(w)
  {
    RepairHasEffect(w, w', id, key, ids);
    RepairKeepsSane(w, w', id, key, ids);
    RepairKeepsQuiet(w, w', id);
    RepairDecreases(w, w', id);
  }

  lemma CycleDecreasesQuietly(w: World, w': World, i: WorkerId, token: Token, e: Id)
    requires Quiet(w) && CycleMove(w, w', i, token, e)
    ensures Quiet(w') && Measure(w') < Measure(w)
  {
    CycleHasEffect(w, w', i, token, e);
    CycleKeepsSane(w, w', i, token, e);
    CycleKeepsQuiet(w, w', e);
    CycleDecreases(w, w', e);
  }

  // -------------------------------------------------------------------- progress

  lemma {:induction false} FreshNumber(used: set<nat>) returns (n: nat)
    ensures forall k :: k in used ==> k < n
  {
    if used == {} {
      n := 0;
    } else {
      var k :| k in used;
      var m := FreshNumber(used - {k});
      n := if m > k then m else k + 1;
      forall other | other in used
        ensures other < n
      {
        assert other != k ==> other in used - {k};
      }
    }
  }

  lemma FreshKey(used: set<string>) returns (key: string)
    ensures key !in used
  {
    var lengths: set<nat> := set other | other in used :: |other|;
    var n := FreshNumber(lengths);
    key := seq(n, i => 'r');
    assert forall k :: k in used ==> |k| in lengths;
    assert |key| == n;
  }

  lemma {:induction false} Oldest(t: Tables, open: set<Id>) returns (e: Id)
    requires open != {} && forall c :: c in open ==> c in t.events
    ensures e in open && forall c :: c in open ==> t.events[e].createdAt <= t.events[c].createdAt
  {
    var c :| c in open;
    if open == {c} {
      e := c;
    } else {
      var rest := open - {c};
      assert open == rest + {c};
      var d := Oldest(t, rest);
      e := if t.events[c].createdAt <= t.events[d].createdAt then c else d;
    }
  }

  /** An open event of a quiet world can be taken from claim to finish. */
  lemma OpenEventMoves(w: World) returns (w': World)
    requires Quiet(w) && Open(w.tables) != {}
    ensures Moves(w, w')
  {
    var e := Oldest(w.tables, Open(w.tables));
    var token := FreshNumber(w.tokens);
    forall c | c in w.tables.events && Claimable(w.tables.events[c], w.now)
      ensures w.tables.events[e].createdAt <= w.tables.events[c].createdAt
    {
      assert c in Open(w.tables);
    }
    assert IsOpen(w.tables, e);
    assert token !in w.tokens;
    w' := CompleteCycle(w, 0, token, e);
  }

  lemma CallIsEnabled(w: World, w2: World, i: WorkerId, token: Token, e: Id)
    requires ClaimedAndChecked(w, w2, i, token, e) && Projectable(w.tables)
    requires MayProject(w.tables.records[w.tables.events[e].resourceId], w.tables.events[e])
    ensures Enabled(w2, CallEngine(i, false, false)) && !Enabled(w2, DiscardEvent(i))
  {
    var r := w.tables.records[w.tables.events[e].resourceId];
    assert w2.workers[i] == Ready(w2.tables.events[e], token, r);
    assert w2.workers[i].event.action in {Apply, AdoptExisting} && r.kind != Cluster ==> Repairable(r);
  }

  lemma CompleteCycle(w: World, i: WorkerId, token: Token, e: Id) returns (w': World)
    requires RowsKeyed(w.tables) && EventsKeyed(w.tables) && EventsHaveRows(w.tables) && Projectable(w.tables)
    requires w.workers == map[] && Enabled(w, ClaimEvent(i, token, e))
    ensures CycleMove(w, w', i, token, e)
  {
    ClaimThenCheck(w, i, token, e);
    var w2 := Next(Next(w, ClaimEvent(i, token, e)), CheckRow(i, false));
    if w2.workers[i].Discarding? {
      w' := Next(w2, DiscardEvent(i));
    } else {
      CallIsEnabled(w, w2, i, token, e);
      CallStep(w2, i);
      w' := Next(Next(w2, CallEngine(i, false, false)), FinishEvent(i));
    }
  }

  lemma FreshRequest(t: Tables) returns (key: string, ids: Ids)
    ensures FreshIds(t, ids) && (0, key) !in t.opIndex
  {
    var record := FreshNumber(t.records.Keys);
    var op := FreshNumber(t.operations.Keys + t.eventIndex.Keys);
    var event := FreshNumber(t.events.Keys);
    var keys := set k | k in t.opIndex.Keys :: k.1;
    key := FreshKey(keys);
    assert forall k :: k in t.opIndex.Keys ==> k.1 in keys;
    assert (0, key).1 == key;
    ids := Ids(record, op, event);
  }

  /** With no open event, a lagging row can be repaired. */
  lemma LaggingRowMoves(w: World, id: Id) returns (w': World, key: string, ids: Ids)
    requires Due(w) && Open(w.tables) == {} && Lagging(w, id)
    ensures RepairMove(w, w', id, key, ids)
  {
    assert forall e :: e in w.tables.events ==> e in Open(w.tables) || w.tables.events[e].processed;
    key, ids := FreshRequest(w.tables);
    LoadStep(w, id);
    w' := Next(Next(w, Load(id)), RepairRow(w.tables.records[id], key, ids));
  }

  /** A quiet world where the loop finds nothing to do has converged. */
  lemma ProgressOrConverged(w: World)
    requires Quiet(w) && !Converged(w)
    ensures exists w' :: Moves(w, w')
  {
    if Open(w.tables) != {} {
      var w' := OpenEventMoves(w);
    } else if id :| Lagging(w, id) {
      var w', key, ids := LaggingRowMoves(w, id);
      assert Moves(w, w');
    } else {
      NothingLeft(w);
    }
  }

  lemma NothingLeft(w: World)
    requires Served(w) && RevisionInv(w) && NoLeftovers(w) && Open(w.tables) == {} && forall id :: !Lagging(w, id)
    ensures Converged(w)
  {
    forall id
      ensures !InDeletion(w, id)
    {
      forall e
        ensures !Serves(w, id, e)
      {
        assert e in w.tables.events ==> e in Open(w.tables) || w.tables.events[e].processed;
      }
    }
    forall id | id in w.tables.records && Repairable(w.tables.records[id])
      ensures w.tables.records[id].appliedRevision == w.tables.records[id].desiredRevision
      ensures Shows(w.engine, w.tables.records[id])
    {
      assert !Lagging(w, id);
      ShowsIffInLine(w.engine, w.tables.records[id]);
    }
  }

  lemma LoopDescends()
    ensures Descends(Moves, Quiet, Measure)
  {
    forall w, w' | Quiet(w) && Moves(w, w')
      ensures Quiet(w') && Measure(w') < Measure(w)
    {
      MovesDecrease(w, w');
    }
  }

  lemma LoopProgresses()
    ensures Progresses(Moves, Quiet, Converged)
  {
    forall w | Quiet(w) && !Converged(w)
      ensures exists w' :: Moves(w, w')
    {
      ProgressOrConverged(w);
    }
  }

  /** However the loop alternates repairs and reconciles, it takes at most `Measure` steps. */
  lemma LoopEnds(ws: seq<World>, k: nat)
    requires Chain(Moves, ws) && Quiet(ws[0]) && k < |ws|
    ensures Quiet(ws[k]) && Measure(ws[k]) + k <= Measure(ws[0])
  {
    LoopDescends();
    ChainDescends(Moves, Quiet, Measure, ws, k);
  }

  /** From every quiet world the loop reaches a converged one within `Measure` steps. */
  lemma Converges(w: World) returns (ws: seq<World>)
    requires Quiet(w)
    ensures Chain(Moves, ws) && ws[0] == w && |ws| <= Measure(w) + 1
    ensures Converged(ws[|ws| - 1])
  {
    LoopDescends();
    LoopProgresses();
    ws := ChainToDone(Moves, Quiet, Converged, Measure, w);
  }

  // ------------------------------------------------- what keeps it from converging

  /** Two API-owned workspaces under one Engine name, neither archived nor in deletion. */
  ghost predicate Clash(t: Tables, id: Id, other: Id) {
    && id != other && LiveWorkspace(t, id) && LiveWorkspace(t, other) && t.records[id].name == t.records[other].name
    && Repairable(t.records[id]) && Repairable(t.records[other])
  }

  /** The Engine has one object for both and labels it with one of them: the other one lags. */
  lemma ClashNeverConverges(w: World, id: Id, other: Id)
    requires RowsKeyed(w.tables) && Clash(w.tables, id, other)
    ensures (Lagging(w, id) || Lagging(w, other)) && !Converged(w)
  {
    assert ObjectKey(w.tables.records[id]) == ObjectKey(w.tables.records[other]);
    assert Projection(w.tables.records[id]).labels.id != Projection(w.tables.records[other]).labels.id;
  }

  /** In every run such a pair keeps the loop from converging until one of the two is deleted. */
  lemma ClashOverRuns(ws: seq<World>, acts: seq<Action>, i: nat, j: nat, id: Id, other: Id)
    requires IsRun(ws, acts) && Init(ws[0]) && i <= j < |ws| && Clash(ws[i].tables, id, other)
    ensures id in ws[j].tables.records && other in ws[j].tables.records
    ensures Repairable(ws[j].tables.records[id]) && Repairable(ws[j].tables.records[other]) ==> !Converged(ws[j])
  {
    RevisionsOverRuns(ws, acts, i, j, id);
    RevisionsOverRuns(ws, acts, i, j, other);
    RunKeepsRevisions(ws, acts, j);
    if Repairable(ws[j].tables.records[id]) && Repairable(ws[j].tables.records[other]) {
      ClashNeverConverges(ws[j], id, other);
    }
  }

  // ------------------------------------------- runs that reach a sane world

  ghost predicate NoneFailing(w: World) {
    forall i :: i in w.workers ==> !w.workers[i].Failing?
  }

  /** While the database answers, no claim fails before its row check: every event has its row. */
  lemma AvailableStepNeverFails(w: World, a: Action)
    requires Enabled(w, a) && NoneFailing(w) && EventsHaveRows(w.tables) && CopiesAgree(w)
    requires !(a.CheckRow? && a.unavailable)
    ensures NoneFailing(Next(w, a)) && !a.FailClaim?
  {
    assert Next(w, a).workers == NextWorkers(w, a);
  }

  /** Every run of one process with an available database passes through sane worlds only. */
  lemma {:induction false} AvailableRunIsSane(ws: seq<World>, acts: seq<Action>, k: nat)
    requires OneProcessRun(ws, acts) && k < |ws|
    requires forall i: nat :: i < |acts| ==> !(acts[i].CheckRow? && acts[i].unavailable)
    ensures Sane(ws[k]) && NoneFailing(ws[k])
  {
    if k > 0 {
      AvailableRunIsSane(ws, acts, k - 1);
      assert StepAt(ws, acts, k - 1) && OneProcess(ws[k - 1], acts[k - 1]);
      AvailableStepNeverFails(ws[k - 1], acts[k - 1]);
      SaneStep(ws[k - 1], acts[k - 1]);
    }
  }
}
