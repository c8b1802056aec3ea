/**
  Active keys, with any number of workers: in every run no two rows carry the same
  key, so no two unarchived applications share an Engine object and no two unarchived
  workspaces a namespace, and an event always has its row. A finishing transaction
  that would write a taken key is rolled back; its row was archived meanwhile.
*/
module GatewayIdentity {
  import opened Prelude
  import opened GatewayModel
  import opened GatewaySteps
  import opened GatewayOutbox
  import opened GatewayFencing
  import opened GatewayRuns
  import opened GatewayRevisions

  ghost predicate Identified(r: Record) {
    && (!r.archived ==> r.activeKey == Some(ActiveIdentity(r.kind, r.name, r.namespace)))
    && (r.state == Archived ==> r.archived)
  }

  ghost predicate KeysDistinct(t: Tables) {
    forall id, other :: id in t.records && other in t.records && id != other && t.records[id].activeKey.Some?
      ==> t.records[other].activeKey != t.records[id].activeKey
  }

  ghost predicate EventsHaveRows(t: Tables) {
    forall e :: e in t.events ==>
      t.events[e].resourceId in t.records
      && (t.events[e].action == Adopt ==> t.records[t.events[e].resourceId].kind == Cluster)
  }

  /** A worker's copy at the current revision names the same object. */
  ghost predicate FlightIdentified(w: World, i: WorkerId)
    requires i in w.workers
  {
    InFlight(w.workers[i]) ==>
      var row := w.workers[i].row;
      && Identified(row)
      && row.id in w.tables.records
      && row.desiredRevision <= w.tables.records[row.id].desiredRevision
      && (row.desiredRevision == w.tables.records[row.id].desiredRevision ==> SamePlace(row, w.tables.records[row.id]))
  }

  ghost predicate SamePlace(before: Record, after: Record) {
    after.kind == before.kind && after.name == before.name && after.namespace == before.namespace
  }

  ghost predicate IdentityInv(w: World) {
    && (forall id :: id in w.tables.records ==> Identified(w.tables.records[id]))
    && KeysDistinct(w.tables)
    && CopiesLive(w)
    && (forall i :: i in w.workers ==> FlightIdentified(w, i))
    && EventsHaveRows(w.tables)
  }

  // ------------------------------------------------------------- writing one row

  /** The row written is identified, and its key is its own or a free one. */
  ghost predicate KeyedPut(t: Tables, r: Record) {
    Identified(r) && !KeyTaken(t, r.activeKey, r.id)
  }

  lemma KeyedPutKeepsKeys(t: Tables, r: Record)
    requires KeysDistinct(t) && KeyedPut(t, r)
    ensures KeysDistinct(PutRow(t, r))
  {
  }

  /** Keeping the key keeps it free for this row. */
  lemma SameKeyIsFree(t: Tables, r: Record)
    requires KeysDistinct(t) && r.id in t.records && r.activeKey == t.records[r.id].activeKey
    ensures !KeyTaken(t, r.activeKey, r.id)
  {
  }

  /** Where a row lives changes with its revision only. */
  ghost predicate Renames(before: Record, after: Record) {
    after.desiredRevision == before.desiredRevision ==> SamePlace(before, after)
  }

  lemma CreateIsKeyed(t: Tables, projects: map<string, string>, p: Principal, kind: Kind, input: ResourceInput, key: string, ids: Ids, now: Time)
    ensures var v := DecideCreate(t, projects, p, kind, input, key, ids, now); v.Commit? ==> KeyedPut(t, v.row) && v.row.id == ids.record
  {
  }

  lemma UpdateIsKeyed(t: Tables, p: Principal, copy: Record, kind: Kind, input: ResourceInput, children: nat, key: string, ids: Ids, now: Time)
    requires RowsKeyed(t) && KeysDistinct(t) && Outdates(copy, t) && Identified(t.records[copy.id])
    ensures var v := DecideUpdate(t, p, copy, kind, input, children, key, ids, now);
            v.Commit? ==> v.row.id in t.records && KeyedPut(t, v.row) && Renames(t.records[v.row.id], v.row)
  {
    var v := DecideUpdate(t, p, copy, kind, input, children, key, ids, now);
    if v.Commit? && v.row.activeKey == t.records[copy.id].activeKey {
      SameKeyIsFree(t, v.row);
    }
  }

  lemma OthersAreKeyed(w: World, a: Action)
    requires Enabled(w, a) && RowsKeyed(w.tables) && KeysDistinct(w.tables) && Decide(w, a).Some?
    requires a.DeleteRequest? || a.AdoptClusterRequest? || a.AdoptExistingRequest? || a.RepairRow?
    requires forall id :: id in w.tables.records ==> Identified(w.tables.records[id])
    ensures var v := Decide(w, a).value;
            v.Commit? ==>
              && v.row.id in w.tables.records && KeyedPut(w.tables, v.row)
              && Renames(w.tables.records[v.row.id], v.row)
              && (v.event.action == Adopt ==> v.row.kind == Cluster)
  {
    var v := Decide(w, a).value;
    if v.Commit? {
      SameKeyIsFree(w.tables, v.row);
    }
  }

  lemma RequestIsKeyed(w: World, a: Action)
    requires Enabled(w, a) && RevisionInv(w) && IdentityInv(w) && Decide(w, a).Some?
    ensures var v := Decide(w, a).value;
            v.Commit? ==>
              && KeyedPut(w.tables, v.row)
              && (v.row.id in w.tables.records ==> Renames(w.tables.records[v.row.id], v.row))
              && (v.event.action == Adopt ==> v.row.kind == Cluster)
  {
    if a.CreateRequest? {
      CreateIsKeyed(w.tables, w.projects, a.p, a.kind, a.input, a.key, a.ids, w.now);
    } else if a.UpdateRequest? {
      UpdateIsKeyed(w.tables, a.p, a.copy, a.kind, a.input, a.children, a.key, a.ids, w.now);
    } else {
      OthersAreKeyed(w, a);
    }
  }

  // -------------------------------------------------------------- one step

  /** The rows after a step: identified, distinctly keyed, renamed only with a new revision. */
  ghost predicate RowsIdentified(t: Tables, t': Tables) {
    && (forall id :: id in t'.records ==> Identified(t'.records[id]))
    && KeysDistinct(t')
    && (forall id :: id in t.records ==> id in t'.records)
  }

  ghost predicate RowsRename(t: Tables, t': Tables) {
    forall id :: id in t.records ==> id in t'.records && Renames(t.records[id], t'.records[id])
  }

  /** Writing one such row keeps them all. */
  lemma PutKeepsRows(t: Tables, t': Tables, r: Record)
    requires KeysDistinct(t) && (forall id :: id in t.records ==> Identified(t.records[id])) && KeyedPut(t, r)
    requires r.id in t.records ==> Renames(t.records[r.id], r)
    requires t'.records == t.records[r.id := r]
    ensures RowsIdentified(t, t') && RowsRename(t, t')
  {
    KeyedPutKeepsKeys(t, r);
    assert KeysDistinct(t');
  }

  lemma RequestKeepsRows(w: World, a: Action)
    requires Enabled(w, a) && RevisionInv(w) && IdentityInv(w) && Decide(w, a).Some?
    ensures var t' := Write(w.tables, Decide(w, a).value); RowsIdentified(w.tables, t') && RowsRename(w.tables, t')
  {
    RequestIsKeyed(w, a);
    var v := Decide(w, a).value;
    if v.Commit? {
      PutKeepsRows(w.tables, Write(w.tables, v), v.row);
    }
  }

  /** The row a finishing transaction writes carries its own identity: the copy is unarchived and names the same object. */
  lemma FinishedIsIdentified(current: Record, copy: Record, e: Event, failed: bool, attempts: nat, now: Time)
    requires Identified(copy) && !copy.archived && SamePlace(copy, current)
    ensures var r := FinishedRow(current, copy, e, failed, attempts, now);
            Identified(r) && r.activeKey == FinishedKey(copy, e, failed) && r.id == current.id && Renames(current, r)
  {
  }

  lemma FinishKeepsRows(w: World, a: Action)
    requires Enabled(w, a) && a.FinishEvent? && RowsKeyed(w.tables) && IdentityInv(w)
    ensures RowsIdentified(w.tables, NextTables(w, a)) && RowsRename(w.tables, NextTables(w, a))
  {
    var phase := w.workers[a.worker];
    var t := w.tables;
    FinishWritesOneRow(t, phase.event, phase.token, phase.row, phase.failed, w.now);
    assert FlightIdentified(w, a.worker);
    if FinishLands(t, phase.event, phase.token, phase.row, phase.failed) {
      var current, attempts := t.records[phase.row.id], t.events[phase.event.id].attempts;
      FinishedIsIdentified(current, phase.row, phase.event, phase.failed, attempts, w.now);
      PutKeepsRows(t, NextTables(w, a), FinishedRow(current, phase.row, phase.event, phase.failed, attempts, w.now));
    }
  }

  lemma MissingKeepsRows(t: Tables, copy: Record, now: Time)
    requires RowsKeyed(t) && KeysDistinct(t) && forall id :: id in t.records ==> Identified(t.records[id])
    ensures RowsIdentified(t, MarkMissing(t, copy, now)) && RowsRename(t, MarkMissing(t, copy, now))
  {
    var t' := MarkMissing(t, copy, now);
    if t' != t {
      SameKeyIsFree(t, t'.records[copy.id]);
      PutKeepsRows(t, t', t'.records[copy.id]);
    }
  }

  lemma BackgroundKeepsRows(w: World, a: Action)
    requires Enabled(w, a) && RevisionInv(w) && IdentityInv(w) && !IsRequest(a)
    ensures RowsIdentified(w.tables, BackgroundTables(w, a)) && RowsRename(w.tables, BackgroundTables(w, a))
  {
    var t' := BackgroundTables(w, a);
    if a.FinishEvent? {
      FinishKeepsRows(w, a);
    } else if a.MissingRow? {
      MissingKeepsRows(w.tables, a.copy, w.now);
    } else if a.Discover? {
      PutKeepsRows(w.tables, t', a.row);
    } else {
      assert t'.records == w.tables.records;
    }
  }

  lemma NextKeepsRows(w: World, a: Action)
    requires Enabled(w, a) && RevisionInv(w) && IdentityInv(w)
    ensures RowsIdentified(w.tables, NextTables(w, a)) && RowsRename(w.tables, NextTables(w, a))
  {
    if !IsRequest(a) {
      BackgroundKeepsRows(w, a);
    } else if Decide(w, a).Some? {
      RequestKeepsRows(w, a);
    }
  }

  /** Every event of the later tables is an old one or was written with its row. */
  lemma NextKeepsEventRows(w: World, a: Action)
    requires Enabled(w, a) && OutboxInv(w.tables) && RevisionInv(w) && IdentityInv(w)
    ensures EventsHaveRows(NextTables(w, a))
  {
    var t' := NextTables(w, a);
    NextGrows(w, a);
    NextAdvances(w, a);
    forall e | e in t'.events
      ensures t'.events[e].resourceId in t'.records && (t'.events[e].action == Adopt ==> t'.records[t'.events[e].resourceId].kind == Cluster)
    {
      if e in w.tables.events {
        assert EventAdvances(w.tables.events[e], t'.events[e]);
        assert RowAdvances(w.tables.records[w.tables.events[e].resourceId], t'.records[w.tables.events[e].resourceId]);
      } else {
        NewEventHasRow(w, a, e);
      }
    }
  }

  lemma NewEventHasRow(w: World, a: Action, e: Id)
    requires Enabled(w, a) && OutboxInv(w.tables) && RevisionInv(w) && IdentityInv(w)
    requires e in NextTables(w, a).events && e !in w.tables.events
    ensures var t' := NextTables(w, a);
            t'.events[e].resourceId in t'.records && (t'.events[e].action == Adopt ==> t'.records[t'.events[e].resourceId].kind == Cluster)
  {
    if IsRequest(a) {
      RequestsAreWellFormed(w, a);
      RequestIsKeyed(w, a);
    } else {
      BackgroundAddsNoEvent(w, a);
    }
  }

  lemma FlightKeepsIdentity(w: World, a: Action, w': World, i: WorkerId)
    requires PhaseMoves(w, a, w') && RowsKeyed(w.tables) && IdentityInv(w) && i in w'.workers
    requires RowsAdvance(w.tables, w'.tables) && RowsRename(w.tables, w'.tables)
    requires a.CheckRow? ==> w'.tables == w.tables
    ensures FlightIdentified(w', i)
  {
    if InFlight(w'.workers[i]) {
      if a == CheckRow(i, false) && i in w.workers && w'.workers[i] == Checked(w.tables, w.workers[i].event, w.workers[i].token, false) {
        assert w'.workers[i].row == w.tables.records[w.workers[i].event.resourceId];
      } else {
        var id := w.workers[i].row.id;
        assert FlightIdentified(w, i);
        assert RowAdvances(w.tables.records[id], w'.tables.records[id]) && Renames(w.tables.records[id], w'.tables.records[id]);
      }
    }
  }

  /** Any number of workers: every step keeps keys apart, rows and copies identified, and events with their rows. */
  lemma NextKeepsIdentity(w: World, a: Action)
    requires Enabled(w, a) && OutboxInv(w.tables) && RevisionInv(w) && IdentityInv(w)
    ensures IdentityInv(Next(w, a))
  {
    NextKeepsRows(w, a);
    NextKeepsEventRows(w, a);
    NextMovesPhases(w, a);
    NextKeepsCopiesLive(w, a);
    NextAdvances(w, a);
    forall i | i in Next(w, a).workers
      ensures FlightIdentified(Next(w, a), i)
    {
      FlightKeepsIdentity(w, a, Next(w, a), i);
    }
  }

  lemma {:induction false} RunKeepsIdentity(ws: seq<World>, acts: seq<Action>, k: nat)
    requires IsRun(ws, acts) && Init(ws[0]) && k < |ws|
    ensures Sound(ws[k]) && RevisionInv(ws[k]) && IdentityInv(ws[k])
  {
    RunIsSound(ws, acts, k);
    RunKeepsRevisions(ws, acts, k);
    if k > 0 {
      RunKeepsIdentity(ws, acts, k - 1);
      assert StepAt(ws, acts, k - 1);
      NextKeepsIdentity(ws[k - 1], acts[k - 1]);
    }
  }

  /**
    In every run, with any number of workers, no two rows carry the same key; unarchived
    applications never share an Engine object, unarchived workspaces never a namespace.
  */
  lemma EngineIdentityOverRuns(ws: seq<World>, acts: seq<Action>, k: nat, id: Id, other: Id)
    requires IsRun(ws, acts) && Init(ws[0]) && k < |ws|
    requires id in ws[k].tables.records && other in ws[k].tables.records && id != other
    ensures var r, s := ws[k].tables.records[id], ws[k].tables.records[other];
            && (r.activeKey.Some? ==> s.activeKey != r.activeKey)
            && (!r.archived && !s.archived && r.kind == s.kind == Application ==> ObjectKey(r) != ObjectKey(s))
            && (!r.archived && !s.archived && r.kind == s.kind == Workspace ==> r.namespace != s.namespace)
  {
    RunKeepsIdentity(ws, acts, k);
    assert Identified(ws[k].tables.records[id]) && Identified(ws[k].tables.records[other]);
  }

  /** The unique index refuses a finish only when the row was archived after the worker read it. */
  lemma RefusedOnlyWhenArchived(w: World, i: WorkerId)
    requires IdentityInv(w) && i in w.workers && w.workers[i].Projected?
    requires FinishRefused(w.tables, w.workers[i].row, w.workers[i].event, w.workers[i].failed)
    ensures w.tables.records[w.workers[i].row.id].archived
  {
    var row := w.workers[i].row;
    assert FlightIdentified(w, i) && Identified(w.tables.records[row.id]);
  }
}
