/**
  Desired and applied revisions of a row, for any number of workers and any
  staleness of the copies handlers and loops act on.
*/
module GatewayRevisions {
  import opened GatewayModel
  import opened GatewaySteps

  /** What one step may do to a row. */
  ghost predicate RowAdvances(before: Record, after: Record) {
    && after.id == before.id && after.kind == before.kind && after.name == before.name
    && (before.parent != NoParent ==> after.parent == before.parent && after.moduleId == before.moduleId)
    && before.desiredRevision <= after.desiredRevision
    && (before.desiredRevision == after.desiredRevision ==> after.desired == before.desired)
    && before.appliedRevision <= after.appliedRevision <= after.desiredRevision
  }

  ghost predicate RowsAdvance(t: Tables, t': Tables) {
    forall id :: id in t.records ==> id in t'.records && RowAdvances(t.records[id], t'.records[id])
  }

  /** A copy read earlier: never newer than the row, and the same content at the same revision. */
  ghost predicate Outdates(copy: Record, t: Tables) {
    && copy.id in t.records
    && copy.kind == t.records[copy.id].kind && copy.name == t.records[copy.id].name
    && (copy.parent != NoParent ==> t.records[copy.id].parent == copy.parent && t.records[copy.id].moduleId == copy.moduleId)
    && copy.desiredRevision <= t.records[copy.id].desiredRevision
    && (copy.desiredRevision == t.records[copy.id].desiredRevision ==> copy.desired == t.records[copy.id].desired)
  }

  ghost predicate RevisionInv(w: World) {
    && RowsKeyed(w.tables)
    && (forall id :: id in w.tables.records ==> w.tables.records[id].appliedRevision <= w.tables.records[id].desiredRevision)
    && (forall copy :: copy in w.loaded ==> Outdates(copy, w.tables))
  }

  lemma PutAdvances(t: Tables, r: Record)
    requires forall id :: id in t.records ==> RowAdvances(t.records[id], t.records[id])
    requires r.id in t.records ==> RowAdvances(t.records[r.id], r)
    ensures RowsAdvance(t, PutRow(t, r))
  {
  }

  lemma RowsReflexive(t: Tables)
    requires forall id :: id in t.records ==> t.records[id].appliedRevision <= t.records[id].desiredRevision
    ensures forall id :: id in t.records ==> RowAdvances(t.records[id], t.records[id])
  {
  }

  lemma UpdateAdvances(t: Tables, p: Principal, copy: Record, kind: Kind, input: ResourceInput, children: nat, key: string, ids: Ids, now: Time)
    requires RowsKeyed(t) && Outdates(copy, t) && t.records[copy.id].appliedRevision <= t.records[copy.id].desiredRevision
    ensures var v := DecideUpdate(t, p, copy, kind, input, children, key, ids, now);
            v.Commit? ==> v.row.id in t.records && RowAdvances(t.records[v.row.id], v.row)
  {
  }

  /** Every request writes a new row or moves an existing one forward. */
  lemma RequestAdvances(w: World, a: Action)
    requires Enabled(w, a) && RevisionInv(w) && Decide(w, a).Some?
    ensures var v := Decide(w, a).value;
            v.Commit? ==>
              && v.row.appliedRevision <= v.row.desiredRevision
              && (v.row.id in w.tables.records ==> RowAdvances(w.tables.records[v.row.id], v.row))
  {
    if a.UpdateRequest? {
      UpdateAdvances(w.tables, a.p, a.copy, a.kind, a.input, a.children, a.key, a.ids, w.now);
    }
  }

  lemma FinishedRowAdvances(current: Record, copy: Record, e: Event, failed: bool, attempts: nat, now: Time)
    requires current.desiredRevision == copy.desiredRevision && current.appliedRevision <= current.desiredRevision
    ensures RowAdvances(current, FinishedRow(current, copy, e, failed, attempts, now))
  {
  }

  /** Settling an event writes no row; finishing writes one existing row. */
  lemma FinishWritesOneRow(t: Tables, e: Event, token: Token, copy: Record, failed: bool, now: Time)
    requires RowsKeyed(t)
    ensures Finish(t, e, token, copy, failed, now).records ==
              if FinishLands(t, e, token, copy, failed)
              then t.records[copy.id := FinishedRow(t.records[copy.id], copy, e, failed, t.events[e.id].attempts, now)]
              else t.records
  {
  }

  lemma FinishAdvances(t: Tables, e: Event, token: Token, copy: Record, failed: bool, now: Time)
    requires RowsKeyed(t)
    requires forall id :: id in t.records ==> t.records[id].appliedRevision <= t.records[id].desiredRevision
    ensures RowsAdvance(t, Finish(t, e, token, copy, failed, now))
    ensures Finish(t, e, token, copy, failed, now).records.Keys == t.records.Keys
  {
    RowsReflexive(t);
    FinishWritesOneRow(t, e, token, copy, failed, now);
    if FinishLands(t, e, token, copy, failed) {
      FinishedRowAdvances(t.records[copy.id], copy, e, failed, t.events[e.id].attempts, now);
    }
  }

  lemma BackgroundAdvances(w: World, a: Action)
    requires Enabled(w, a) && RevisionInv(w) && !IsRequest(a)
    ensures RowsAdvance(w.tables, BackgroundTables(w, a))
  {
    RowsReflexive(w.tables);
    var t' := BackgroundTables(w, a);
    if a.FinishEvent? {
      var phase := w.workers[a.worker];
      FinishAdvances(w.tables, phase.event, phase.token, phase.row, phase.failed, w.now);
    } else if a.MissingRow? {
      if t' != w.tables {
        PutAdvances(w.tables, t'.records[a.copy.id]);
      }
    } else if a.Discover? {
      PutAdvances(w.tables, a.row);
    } else {
      assert t'.records == w.tables.records;
    }
  }

  lemma NextAdvances(w: World, a: Action)
    requires Enabled(w, a) && RevisionInv(w)
    ensures RowsAdvance(w.tables, NextTables(w, a))
  {
    RowsReflexive(w.tables);
    if !IsRequest(a) {
      BackgroundAdvances(w, a);
    } else if Decide(w, a).Some? && Decide(w, a).value.Commit? {
      RequestAdvances(w, a);
      PutAdvances(w.tables, Decide(w, a).value.row);
    }
  }

  /** Rows appear one at a time, keyed and with nothing applied beyond what is desired. */
  ghost predicate NewRowsSound(t: Tables, t': Tables) {
    forall id :: id in t'.records && id !in t.records ==>
      t'.records[id].id == id && t'.records[id].appliedRevision <= t'.records[id].desiredRevision
  }

  lemma BackgroundAddsSoundRows(w: World, a: Action)
    requires Enabled(w, a) && RevisionInv(w) && !IsRequest(a)
    ensures NewRowsSound(w.tables, BackgroundTables(w, a))
  {
    var t' := BackgroundTables(w, a);
    if a.FinishEvent? {
      var phase := w.workers[a.worker];
      FinishAdvances(w.tables, phase.event, phase.token, phase.row, phase.failed, w.now);
    } else if a.Discover? {
      assert t'.records == w.tables.records[a.row.id := a.row];
    } else {
      assert t'.records.Keys == w.tables.records.Keys;
    }
  }

  lemma NextAddsSoundRows(w: World, a: Action)
    requires Enabled(w, a) && RevisionInv(w)
    ensures NewRowsSound(w.tables, NextTables(w, a))
  {
    if !IsRequest(a) {
      BackgroundAddsSoundRows(w, a);
    } else if Decide(w, a).Some? {
      RequestAdvances(w, a);
    }
  }

  lemma AdvanceKeepsRevisions(w: World, w': World)
    requires RevisionInv(w) && RowsAdvance(w.tables, w'.tables) && NewRowsSound(w.tables, w'.tables)
    requires forall copy :: copy in w'.loaded ==> copy in w.loaded || (copy.id in w.tables.records && copy == w.tables.records[copy.id])
    ensures RevisionInv(w')
  {
    forall id | id in w'.tables.records
      ensures w'.tables.records[id].id == id && w'.tables.records[id].appliedRevision <= w'.tables.records[id].desiredRevision
    {
      assert id in w.tables.records ==> RowAdvances(w.tables.records[id], w'.tables.records[id]);
    }
    forall copy | copy in w'.loaded
      ensures Outdates(copy, w'.tables)
    {
      assert Outdates(copy, w.tables);
      assert RowAdvances(w.tables.records[copy.id], w'.tables.records[copy.id]);
    }
  }

  lemma NextKeepsRevisions(w: World, a: Action)
    requires Enabled(w, a) && RevisionInv(w)
    ensures RevisionInv(Next(w, a)) && RowsAdvance(w.tables, Next(w, a).tables)
  {
    NextAdvances(w, a);
    NextAddsSoundRows(w, a);
    AdvanceKeepsRevisions(w, Next(w, a));
  }

  // ------------------------------------------------------------------ whole runs

  lemma {:induction false} RunKeepsRevisions(ws: seq<World>, acts: seq<Action>, k: nat)
    requires IsRun(ws, acts) && Init(ws[0]) && k < |ws|
    ensures RevisionInv(ws[k])
  {
    if k > 0 {
      RunKeepsRevisions(ws, acts, k - 1);
      assert StepAt(ws, acts, k - 1);
      NextKeepsRevisions(ws[k - 1], acts[k - 1]);
    }
  }

  /**
    Revisions only grow, what is applied never exceeds what is desired, a revision of
    a row names one content over the whole run, and a parent once set is never changed.
  */
  lemma {:induction false} RevisionsOverRuns(ws: seq<World>, acts: seq<Action>, i: nat, j: nat, id: Id)
    requires IsRun(ws, acts) && Init(ws[0]) && i <= j < |ws| && id in ws[i].tables.records
    ensures id in ws[j].tables.records
    ensures RowAdvances(ws[i].tables.records[id], ws[j].tables.records[id])
    decreases j
  {
    RunKeepsRevisions(ws, acts, i);
    if i < j {
      RevisionsOverRuns(ws, acts, i, j - 1, id);
      RunKeepsRevisions(ws, acts, j - 1);
      assert StepAt(ws, acts, j - 1);
      NextKeepsRevisions(ws[j - 1], acts[j - 1]);
      assert RowAdvances(ws[j - 1].tables.records[id], ws[j].tables.records[id]);
    }
  }

  /** Of two content updates that read the same revision of a row, only the first commits. */
  lemma SecondUpdateLoses(ws: seq<World>, acts: seq<Action>, i: nat, j: nat)
    requires IsRun(ws, acts) && Init(ws[0]) && i < j < |acts|
    requires acts[i].UpdateRequest? && acts[j].UpdateRequest?
    requires acts[j].copy.id == acts[i].copy.id && acts[j].copy.desiredRevision == acts[i].copy.desiredRevision
    requires HasDesired(acts[i].input.desired) && Decide(ws[i], acts[i]).value.Commit?
    ensures !Decide(ws[j], acts[j]).value.Commit?
  {
    assert StepAt(ws, acts, i);
    assert StepAt(ws, acts, j);
    RunKeepsRevisions(ws, acts, i);
    var id := acts[i].copy.id;
    assert Outdates(acts[i].copy, ws[i].tables);
    CommittedUpdateBumps(ws[i], acts[i]);
    RevisionsOverRuns(ws, acts, i + 1, j, id);
    assert ws[j].tables.records[id].desiredRevision > acts[j].copy.desiredRevision;
    StaleUpdateRejected(ws[j], acts[j]);
  }

  lemma CommittedUpdateBumps(w: World, a: Action)
    requires Enabled(w, a) && RowsKeyed(w.tables) && a.UpdateRequest? && HasDesired(a.input.desired) && Decide(w, a).value.Commit?
    ensures a.copy.id in NextTables(w, a).records
    ensures NextTables(w, a).records[a.copy.id].desiredRevision == a.copy.desiredRevision + 1
    ensures NextTables(w, a).records[a.copy.id].desired == a.input.desired
  {
  }

  lemma StaleUpdateRejected(w: World, a: Action)
    requires a.UpdateRequest? && a.copy.id in w.tables.records
    requires w.tables.records[a.copy.id].desiredRevision != a.copy.desiredRevision
    ensures !Decide(w, a).value.Commit?
  {
  }

  // --------------------------------------------------------------- module scope

  /** An update without administrative rights writes a row that is, at that moment, its caller's module's; rows filed nowhere when read aside. */
  lemma UpdatesStayInScope(w: World, a: Action)
    requires Enabled(w, a) && RevisionInv(w) && a.UpdateRequest? && !a.p.admin && Decide(w, a).value.Commit?
    ensures a.copy.parent != NoParent ==> Decide(w, a).value.row.moduleId == w.tables.records[a.copy.id].moduleId == a.p.moduleId
  {
    UpdateStaysInScope(w, a);
    assert Outdates(a.copy, w.tables);
    UpdateKeepsModule(w, a);
  }

  lemma UpdateKeepsModule(w: World, a: Action)
    requires Enabled(w, a) && RowsKeyed(w.tables) && a.UpdateRequest? && Decide(w, a).value.Commit?
    ensures a.copy.id in w.tables.records && Decide(w, a).value.row.moduleId == w.tables.records[a.copy.id].moduleId
  {
  }
}
