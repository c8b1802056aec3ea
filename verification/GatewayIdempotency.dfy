/**
  Idempotency keys over whole runs. Creating, deleting and adopting look the key
  up before they look at anything that can change, so a repeated request always
  gets its first answer. An update inspects its row first, so its replay works
  exactly while those inspections pass.
*/
module GatewayIdempotency {
  import opened Prelude
  import opened GatewayModel
  import opened GatewaySteps
  import opened GatewayOutbox
  import opened GatewayRuns
  import opened GatewayRevisions

  /** The requests whose key lookup depends on nothing in the tables. */
  predicate Replayable(a: Action) {
    a.CreateRequest? || a.DeleteRequest? || a.AdoptClusterRequest? || a.AdoptExistingRequest?
  }

  predicate ClientRequest(a: Action) {
    Replayable(a) || a.UpdateRequest?
  }

  /** What the program hashes to recognise a request. */
  function FingerprintOf(a: Action): Fingerprint
    requires ClientRequest(a)
  {
    match a
    case CreateRequest(p, kind, input, _, _) => Request(p.userId, kind, CreateVerb, None, Some(input))
    case UpdateRequest(p, copy, kind, input, _, _, _) => Request(p.userId, kind, UpdateVerb, Some(copy.id), Some(input))
    case DeleteRequest(p, id, kind, _, _) => Request(p.userId, kind, DeleteVerb, Some(id), None)
    case AdoptClusterRequest(p, id, _, _) => Request(p.userId, Cluster, AdoptClusterVerb, Some(id), None)
    case AdoptExistingRequest(p, id, kind, input, _, _) => Request(p.userId, kind, AdoptExistingVerb, Some(id), Some(input))
  }

  /** The same request sent again; only the IDs drawn by the server differ. */
  predicate SameRequest(a: Action, b: Action) {
    match a
    case CreateRequest(p, kind, input, key, _) => b.CreateRequest? && b.p == p && b.kind == kind && b.input == input && b.key == key
    case DeleteRequest(p, id, kind, key, _) => b.DeleteRequest? && b.p == p && b.id == id && b.kind == kind && b.key == key
    case AdoptClusterRequest(p, id, key, _) => b.AdoptClusterRequest? && b.p == p && b.id == id && b.key == key
    case AdoptExistingRequest(p, id, kind, input, key, _) =>
      b.AdoptExistingRequest? && b.p == p && b.id == id && b.kind == kind && b.input == input && b.key == key
    case _ => false
  }

  /** The request was answered with this operation. */
  ghost predicate Answered(w: World, a: Action, op: Operation) {
    ClientRequest(a) && Decide(w, a).Some? && Reply(Decide(w, a).value) == Success(op)
  }

  /** The operation is on file under the request's key. */
  ghost predicate Filed(t: Tables, a: Action, op: Id)
    requires ClientRequest(a)
  {
    && (a.p.userId, a.key) in t.opIndex && t.opIndex[(a.p.userId, a.key)] == op
    && op in t.operations && t.operations[op].fingerprint == FingerprintOf(a)
  }

  lemma CommitCarriesFingerprint(w: World, a: Action)
    requires Enabled(w, a) && ClientRequest(a) && Decide(w, a).Some? && Decide(w, a).value.Commit?
    ensures var op := Decide(w, a).value.op; op.fingerprint == FingerprintOf(a) && op.actor == a.p.userId && op.key == a.key
  {
  }

  lemma ReplayIsFound(w: World, a: Action)
    requires Enabled(w, a) && ClientRequest(a) && Decide(w, a).Some? && Decide(w, a).value.Replay?
    ensures FindIdempotent(w.tables, a.p.userId, a.key, FingerprintOf(a)) == Decide(w, a)
  {
  }

  lemma CommitIsFiled(w: World, a: Action)
    requires Enabled(w, a) && ClientRequest(a) && Decide(w, a).Some? && Decide(w, a).value.Commit?
    ensures Filed(Write(w.tables, Decide(w, a).value), a, Decide(w, a).value.op.id)
  {
    CommitCarriesFingerprint(w, a);
  }

  lemma AnswerIsFiled(w: World, a: Action, op: Operation)
    requires Enabled(w, a) && OutboxInv(w.tables) && Answered(w, a, op)
    ensures Filed(NextTables(w, a), a, op.id)
  {
    assert NextTables(w, a) == Write(w.tables, Decide(w, a).value);
    if Decide(w, a).value.Commit? {
      CommitIsFiled(w, a);
    } else {
      ReplayIsFound(w, a);
    }
  }

  lemma FiledStays(t: Tables, t': Tables, a: Action, op: Id)
    requires Extends(t, t') && ClientRequest(a) && Filed(t, a, op)
    ensures Filed(t', a, op)
  {
  }

  /** A request that was once answered passes its input checks again, so the key decides. */
  lemma FiledIsReplayed(w0: World, w: World, a: Action, b: Action, op: Operation)
    requires Replayable(a) && SameRequest(a, b) && Answered(w0, a, op) && Filed(w.tables, a, op.id)
    ensures Decide(w, b) == Some(Replay(w.tables.operations[op.id]))
  {
  }

  lemma AnswerIsStored(w: World, a: Action, op: Operation)
    requires Enabled(w, a) && OutboxInv(w.tables) && Answered(w, a, op)
    ensures op.id in NextTables(w, a).operations && NextTables(w, a).operations[op.id] == op
  {
    var v := Decide(w, a).value;
    assert NextTables(w, a) == Write(w.tables, v);
    if !v.Commit? {
      ReplayIsFound(w, a);
    }
  }

  /** Once answered, always on file, as the same operation. */
  lemma AnswerStaysFiled(ws: seq<World>, acts: seq<Action>, i: nat, j: nat, op: Operation)
    requires IsRun(ws, acts) && Init(ws[0]) && i < j < |ws|
    requires Answered(ws[i], acts[i], op)
    ensures Filed(ws[j].tables, acts[i], op.id)
    ensures ws[j].tables.operations[op.id] == op.(state := ws[j].tables.operations[op.id].state)
  {
    RunIsSound(ws, acts, i);
    assert StepAt(ws, acts, i);
    AnswerIsFiled(ws[i], acts[i], op);
    AnswerIsStored(ws[i], acts[i], op);
    RunExtends(ws, acts, i + 1, j);
    FiledStays(ws[i + 1].tables, ws[j].tables, acts[i], op.id);
  }

  /**
    Repeating an answered create, delete or adopt request returns the same operation
    and changes no table, whatever happened in between.
  */
  lemma RepeatGetsSameOperation(ws: seq<World>, acts: seq<Action>, i: nat, j: nat, b: Action, op: Operation)
    requires IsRun(ws, acts) && Init(ws[0]) && i < j < |ws|
    requires Replayable(acts[i]) && SameRequest(acts[i], b) && Answered(ws[i], acts[i], op)
    requires Enabled(ws[j], b)
    ensures op.id in ws[j].tables.operations
    ensures ws[j].tables.operations[op.id] == op.(state := ws[j].tables.operations[op.id].state)
    ensures Answered(ws[j], b, ws[j].tables.operations[op.id])
    ensures Next(ws[j], b).tables == ws[j].tables
  {
    AnswerStaysFiled(ws, acts, i, j, op);
    FiledIsReplayed(ws[i], ws[j], acts[i], b, op);
    assert Decide(ws[j], b) == Some(Replay(ws[j].tables.operations[op.id]));
  }

  /** A different request under a used key is refused and changes nothing. */
  lemma ReusedKeyChangesNothing(ws: seq<World>, acts: seq<Action>, i: nat, j: nat, b: Action, op: Operation)
    requires IsRun(ws, acts) && Init(ws[0]) && i < j < |ws|
    requires ClientRequest(acts[i]) && Answered(ws[i], acts[i], op)
    requires ClientRequest(b) && b.p.userId == acts[i].p.userId && b.key == acts[i].key && FingerprintOf(b) != FingerprintOf(acts[i])
    requires Enabled(ws[j], b)
    ensures Decide(ws[j], b).Some? && Decide(ws[j], b).value.Reject?
    ensures Next(ws[j], b).tables == ws[j].tables
  {
    AnswerStaysFiled(ws, acts, i, j, op);
    OtherFingerprintRejected(ws[j], acts[i], b, op.id);
  }

  lemma OtherFingerprintRejected(w: World, a: Action, b: Action, op: Id)
    requires ClientRequest(a) && ClientRequest(b) && Filed(w.tables, a, op)
    requires b.p.userId == a.p.userId && b.key == a.key && FingerprintOf(b) != FingerprintOf(a)
    ensures Decide(w, b).Some? && Decide(w, b).value.Reject?
  {
    assert FindIdempotent(w.tables, b.p.userId, b.key, FingerprintOf(b)) == Some(Reject(IdempotencyConflict));
  }

  /** (actor, key) names one operation for ever. */
  lemma OneOperationPerKey(ws: seq<World>, acts: seq<Action>, i: nat, j: nat, o: Id, o': Id)
    requires IsRun(ws, acts) && Init(ws[0]) && i <= j < |ws|
    requires o in ws[i].tables.operations && o' in ws[j].tables.operations
    requires ws[i].tables.operations[o].actor == ws[j].tables.operations[o'].actor
    requires ws[i].tables.operations[o].key == ws[j].tables.operations[o'].key
    ensures o == o'
  {
    RunIsSound(ws, acts, j);
    RunExtends(ws, acts, i, j);
    assert ws[j].tables.operations[o].key == ws[i].tables.operations[o].key;
  }

  // ------------------------------------------------------------------- updates

  /**
    An update replays exactly while the checks on the row it reads first pass. `b` is
    the same update sent again; its copy of the row is read anew.
  */
  lemma UpdateReplaysIff(ws: seq<World>, acts: seq<Action>, i: nat, j: nat, b: Action, op: Operation)
    requires IsRun(ws, acts) && Init(ws[0]) && i < j < |ws|
    requires acts[i].UpdateRequest? && Answered(ws[i], acts[i], op)
    requires b.UpdateRequest? && b.p == acts[i].p && b.key == acts[i].key && b.kind == acts[i].kind && b.input == acts[i].input
    requires b.copy.id == acts[i].copy.id && Enabled(ws[j], b)
    ensures op.id in ws[j].tables.operations
    ensures Decide(ws[j], b) == Some(Replay(ws[j].tables.operations[op.id])) <==>
            PrecheckUpdate(b.p, b.copy, b.kind, b.input, b.children).None?
    ensures Next(ws[j], b).tables == ws[j].tables
  {
    AnswerStaysFiled(ws, acts, i, j, op);
    UpdateDecision(ws[j], acts[i], b, op.id);
  }

  lemma UpdateDecision(w: World, a: Action, b: Action, op: Id)
    requires a.UpdateRequest? && b.UpdateRequest? && Filed(w.tables, a, op)
    requires b.p == a.p && b.key == a.key && FingerprintOf(b) == FingerprintOf(a)
    ensures Decide(w, b) == Some(Replay(w.tables.operations[op])) <==> PrecheckUpdate(b.p, b.copy, b.kind, b.input, b.children).None?
    ensures Decide(w, b).Some? && !Decide(w, b).value.Commit?
  {
    assert FindIdempotent(w.tables, b.p.userId, b.key, FingerprintOf(b)) == Some(Replay(w.tables.operations[op]));
  }

  /**
    What the checks ask of the row as it is now, once the request passed them before: it is
    live and in scope, and a workspace that has applications keeps its namespace.
  */
  ghost predicate StillOpen(t: Tables, p: Principal, row: Record, kind: Kind, input: ResourceInput) {
    && !row.archived && row.syncState != Deleting && row.state != Archived && InScope(p, row)
    && (kind == Workspace && HasDesired(input.desired) ==>
          && EffectiveNamespace(row.name, row.desired).Success?
          && (EffectiveNamespace(row.name, row.desired) == EffectiveNamespace(row.name, input.desired) || !HasChildren(t, row.id)))
  }

  /** The first answer of an update fixes everything its checks ask of the request itself. */
  lemma AnsweredPassedChecks(w: World, a: Action, op: Operation)
    requires a.UpdateRequest? && Answered(w, a, op)
    ensures PrecheckUpdate(a.p, a.copy, a.kind, a.input, a.children).None?
  {
  }

  lemma ChecksNow(p: Principal, first: Record, firstChildren: nat, row: Record, kind: Kind, input: ResourceInput, children: nat, t: Tables)
    requires PrecheckUpdate(p, first, kind, input, firstChildren).None?
    requires row.kind == first.kind && row.name == first.name && (first.parent != NoParent ==> row.parent == first.parent)
    requires children > 0 <==> HasChildren(t, row.id)
    ensures PrecheckUpdate(p, row, kind, input, children).None? <==> StillOpen(t, p, row, kind, input)
  {
  }

  /**
    A repeated update that reads the row and counts its children now is answered with its
    operation exactly when the row is still open to it; otherwise it is refused, and a row
    in deletion or archived is reported as missing.
  */
  lemma UpdateReplaysNowIff(ws: seq<World>, acts: seq<Action>, i: nat, j: nat, b: Action, op: Operation)
    requires IsRun(ws, acts) && Init(ws[0]) && i < j < |ws|
    requires acts[i].UpdateRequest? && Answered(ws[i], acts[i], op)
    requires b.UpdateRequest? && b.p == acts[i].p && b.key == acts[i].key && b.kind == acts[i].kind && b.input == acts[i].input
    requires b.copy.id == acts[i].copy.id && Enabled(ws[j], b)
    requires b.copy.id in ws[j].tables.records && b.copy == ws[j].tables.records[b.copy.id]
    requires b.children > 0 <==> HasChildren(ws[j].tables, b.copy.id)
    ensures op.id in ws[j].tables.operations
    ensures Decide(ws[j], b) == Some(Replay(ws[j].tables.operations[op.id])) <==> StillOpen(ws[j].tables, b.p, b.copy, b.kind, b.input)
    ensures !StillOpen(ws[j].tables, b.p, b.copy, b.kind, b.input) ==> Decide(ws[j], b).Some? && Decide(ws[j], b).value.Reject?
    ensures b.copy.archived || b.copy.syncState == Deleting ==> Decide(ws[j], b) == Some(Reject(NotFound))
  {
    UpdateReplaysIff(ws, acts, i, j, b, op);
    AnsweredPassedChecks(ws[i], acts[i], op);
    RowFollowsCopy(ws, acts, i, j);
    ChecksNow(b.p, acts[i].copy, acts[i].children, b.copy, b.kind, b.input, b.children, ws[j].tables);
  }

  /** The row later on has the kind, the name and, once filed, the parent of the copy an update used. */
  lemma RowFollowsCopy(ws: seq<World>, acts: seq<Action>, i: nat, j: nat)
    requires IsRun(ws, acts) && Init(ws[0]) && i < j < |ws| && acts[i].UpdateRequest?
    ensures var copy := acts[i].copy;
            && copy.id in ws[j].tables.records && ws[j].tables.records[copy.id].id == copy.id
            && ws[j].tables.records[copy.id].kind == copy.kind && ws[j].tables.records[copy.id].name == copy.name
            && (copy.parent != NoParent ==> ws[j].tables.records[copy.id].parent == copy.parent)
  {
    assert StepAt(ws, acts, i);
    RunKeepsRevisions(ws, acts, i);
    RunKeepsRevisions(ws, acts, j);
    assert Outdates(acts[i].copy, ws[i].tables);
    RevisionsOverRuns(ws, acts, i, j, acts[i].copy.id);
  }
}
