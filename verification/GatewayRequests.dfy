/**
  What a request leaves in the tables, in terms of what the caller sent and of the rows it
  found: the row, the operation and the event, and when a request is accepted at all.
*/
module GatewayRequests {
  import opened Prelude
  import opened GatewayModel
  import opened GatewaySteps
  import opened GatewayRevisions
  import opened GatewayIdentity
  import opened GatewayIdempotency

  /** The request is answered by a commit, not by a refusal or a stored operation. */
  ghost predicate Commits(w: World, a: Action) {
    Enabled(w, a) && IsRequest(a) && Decide(w, a).Some? && Decide(w, a).value.Commit?
  }

  // ----------------------------------------------------------------- the three rows

  function ActionOf(a: Action): EventAction
    requires IsRequest(a)
  {
    match a
    case DeleteRequest(_, _, _, _, _) => Delete
    case AdoptClusterRequest(_, _, _, _) => Adopt
    case AdoptExistingRequest(_, _, _, _, _, _) => AdoptExisting
    case _ => Apply
  }

  function IdsOf(a: Action): Ids
    requires IsRequest(a)
  {
    match a
    case CreateRequest(_, _, _, _, ids) => ids
    case UpdateRequest(_, _, _, _, _, _, ids) => ids
    case DeleteRequest(_, _, _, _, ids) => ids
    case AdoptClusterRequest(_, _, _, ids) => ids
    case AdoptExistingRequest(_, _, _, _, _, ids) => ids
    case RepairRow(_, _, ids) => ids
  }

  /** The row a request is about. */
  function TargetOf(a: Action): Id
    requires IsRequest(a)
  {
    match a
    case CreateRequest(_, _, _, _, ids) => ids.record
    case UpdateRequest(_, copy, _, _, _, _, _) => copy.id
    case DeleteRequest(_, id, _, _, _) => id
    case AdoptClusterRequest(_, id, _, _) => id
    case AdoptExistingRequest(_, id, _, _, _, _) => id
    case RepairRow(copy, _, _) => copy.id
  }

  /** The event of a commit, in full. */
  ghost predicate Announces(event: Event, row: Record, ids: Ids, action: EventAction, now: Time) {
    event == Event(ids.event, ids.op, row.id, action, row.desiredRevision, 0, now, false, None, now)
  }

  lemma UpdateVerdict(w: World, a: Action)
    requires Commits(w, a) && a.UpdateRequest? && RowsKeyed(w.tables)
    ensures var v := Decide(w, a).value;
            v.row.id == a.copy.id && v.row.id in w.tables.records && Announces(v.event, v.row, a.ids, Apply, w.now)
            && v.op.id == a.ids.op && v.op.actor == a.p.userId && v.op.key == a.key && v.op.resourceId == v.row.id && v.op.action == Apply && v.op.state == OpPending
  {
  }

  lemma VerdictShape(w: World, a: Action)
    requires Commits(w, a) && RowsKeyed(w.tables) && !a.RepairRow?
    ensures var v, ids := Decide(w, a).value, IdsOf(a);
            v.row.id == TargetOf(a) && Announces(v.event, v.row, ids, ActionOf(a), w.now)
            && v.op.id == ids.op && v.op.actor == a.p.userId && v.op.key == a.key && v.op.resourceId == v.row.id && v.op.action == ActionOf(a)
            && v.op.state == OpPending
  {
    if a.UpdateRequest? {
      UpdateVerdict(w, a);
    }
  }

  /**
    A commit writes its row, one event about that row at the row's revision, due at once and
    held by nobody, and the pending operation the caller is answered with.
  */
  lemma CommitLeaves(w: World, a: Action)
    requires Commits(w, a) && RowsKeyed(w.tables) && !a.RepairRow?
    ensures var t', ids, id := Next(w, a).tables, IdsOf(a), TargetOf(a);
            && id in t'.records && ids.event in t'.events && ids.op in t'.operations
            && var row, event, op := t'.records[id], t'.events[ids.event], t'.operations[ids.op];
               && row.id == id && op.id == ids.op
               && Announces(event, row, ids, ActionOf(a), w.now)
               && op.actor == a.p.userId && op.key == a.key && op.resourceId == id && op.action == ActionOf(a) && op.state == OpPending
               && Reply(Decide(w, a).value) == Success(op)
               && (forall other :: other != id ==> (other in t'.records <==> other in w.tables.records))
               && (forall other :: other != id && other in w.tables.records ==> t'.records[other] == w.tables.records[other])
  {
    VerdictShape(w, a);
    assert Next(w, a).tables == Write(w.tables, Decide(w, a).value);
  }

  /** A repair leaves the rows alone and asks for the revision of the row it read. */
  lemma RepairLeaves(w: World, a: Action)
    requires Commits(w, a) && a.RepairRow? && RowsKeyed(w.tables)
    ensures Next(w, a).tables.records == w.tables.records
    ensures var t', ids := Next(w, a).tables, IdsOf(a);
            && ids.event in t'.events && ids.op in t'.operations
            && var event := t'.events[ids.event];
               event.resourceId == a.copy.id && event.action == Apply && event.desiredRevision == a.copy.desiredRevision
               && !event.processed && event.attempts == 0 && event.claim == None && event.availableAt == w.now
  {
  }

  // ------------------------------------------------------------------- create

  /** The specification fits the kind; environment values come from secrets only. */
  predicate WellSpecified(kind: Kind, d: DesiredState) {
    match kind
    case Workspace => d.workspace.Some? && d.application.None?
    case Application => d.application.Some? && d.workspace.None? &&
                        forall i :: 0 <= i < |d.application.value.envs| ==>
                          d.application.value.envs[i].inlineValue == "" && d.application.value.envs[i].secretName != "" && d.application.value.envs[i].secretKey != ""
    case Cluster => false
  }

  /** The namespace a workspace asks for: the one of its specification, or its own name. */
  function NamespaceOf(name: string, d: DesiredState): string
    requires d.workspace.Some?
  {
    if d.workspace.value.namespace == "" then name else d.workspace.value.namespace
  }

  /** A created row carries what was sent, at revision 1 with nothing applied, and is filed where the caller said. */
  lemma CreatedRow(w: World, a: Action)
    requires Commits(w, a) && a.CreateRequest?
    ensures a.ids.record in Next(w, a).tables.records && a.input.name != "" && WellSpecified(a.kind, a.input.desired)
    ensures var row := Next(w, a).tables.records[a.ids.record];
            && row.kind == a.kind && row.name == a.input.name && row.desired == a.input.desired
            && row.desiredRevision == 1 && row.appliedRevision == 0 && row.syncState == Pending && row.source == Api && row.state == Plain
            && !row.archived && !row.unsupported
    ensures a.kind == Workspace ==>
              var row := Next(w, a).tables.records[a.ids.record];
              && a.input.projectId in w.projects && (a.p.admin || w.projects[a.input.projectId] == a.p.moduleId)
              && row.parent == OfProject(a.input.projectId) && row.project == a.input.projectId && row.moduleId == w.projects[a.input.projectId]
              && row.namespace == NamespaceOf(a.input.name, a.input.desired) && row.activeKey == Some(WorkspaceKey(row.namespace))
    ensures a.kind == Application ==>
              a.input.workspaceId.Some? && a.input.workspaceId.value in w.tables.records &&
              var row, parent := Next(w, a).tables.records[a.ids.record], w.tables.records[a.input.workspaceId.value];
              && parent.kind == Workspace && !parent.archived && parent.syncState != Deleting && parent.state != Lifecycle.Archived
              && (a.p.admin || parent.moduleId == a.p.moduleId) && parent.desired.workspace.Some?
              && row.parent == OfRecord(a.input.workspaceId.value) && row.project == parent.project && row.moduleId == parent.moduleId
              && row.namespace == NamespaceOf(parent.name, parent.desired) && row.activeKey == Some(ApplicationKey(row.namespace, row.name))
  {
  }

  /** A create request under an unused key is accepted exactly when it is well formed, its parent takes it and its identity is free. */
  lemma CreateCommitsIff(w: World, a: Action)
    requires Enabled(w, a) && a.CreateRequest? && (a.p.userId, a.key) !in w.tables.opIndex
    ensures Commits(w, a) <==>
              && a.input.name != "" && WellSpecified(a.kind, a.input.desired)
              && (a.kind == Workspace ==>
                    && a.input.projectId != "" && a.input.projectId in w.projects && (a.p.admin || w.projects[a.input.projectId] == a.p.moduleId)
                    && !KeyTaken(w.tables, Some(WorkspaceKey(NamespaceOf(a.input.name, a.input.desired))), a.ids.record))
              && (a.kind == Application ==>
                    && a.input.workspaceId.Some? && a.input.workspaceId.value in w.tables.records
                    && var parent := w.tables.records[a.input.workspaceId.value];
                       && parent.kind == Workspace && !parent.archived && parent.syncState != Deleting && parent.state != Lifecycle.Archived
                       && (a.p.admin || parent.moduleId == a.p.moduleId) && parent.desired.workspace.Some?
                       && !KeyTaken(w.tables, Some(ApplicationKey(NamespaceOf(parent.name, parent.desired), a.input.name)), a.ids.record))
  {
  }

  // ------------------------------------------------------------------- update

  /** An update without a specification leaves everything but the sync state; one with a specification makes it the next revision. */
  lemma UpdatedRow(w: World, a: Action)
    requires Commits(w, a) && a.UpdateRequest? && RevisionInv(w)
    ensures a.copy.id in w.tables.records && a.copy.id in Next(w, a).tables.records
    ensures var before, row := w.tables.records[a.copy.id], Next(w, a).tables.records[a.copy.id];
            && row == before.(desired := row.desired, desiredRevision := row.desiredRevision, syncState := Pending, updatedAt := w.now,
                              namespace := row.namespace, activeKey := row.activeKey)
            && (if a.input.desired.workspace.None? && a.input.desired.application.None?
                then row.desired == before.desired && row.desiredRevision == before.desiredRevision
                else row.desired == a.input.desired && row.desiredRevision == before.desiredRevision + 1 && WellSpecified(a.kind, row.desired))
            && (a.kind != Workspace || a.input.desired.workspace.None? ==> row.namespace == before.namespace && row.activeKey == before.activeKey)
  {
    assert Outdates(a.copy, w.tables);
    UpdateShape(w, a);
  }

  lemma UpdateShape(w: World, a: Action)
    requires Commits(w, a) && a.UpdateRequest? && RowsKeyed(w.tables) && Outdates(a.copy, w.tables)
    ensures var v := Decide(w, a).value;
            && v.row.id == a.copy.id && Next(w, a).tables.records == w.tables.records[a.copy.id := v.row]
            && w.tables.records[a.copy.id].desiredRevision == a.copy.desiredRevision && a.kind == a.copy.kind
            && !w.tables.records[a.copy.id].archived && w.tables.records[a.copy.id].syncState != Deleting
  {
  }

  /**
    After an accepted update of a workspace's specification the row stands in the namespace
    it asks for, under that namespace's key, and no other row has the key.
  */
  lemma UpdatedWorkspaceMoves(w: World, a: Action)
    requires Commits(w, a) && a.UpdateRequest? && RevisionInv(w) && a.kind == Workspace && a.input.desired.workspace.Some?
    ensures a.copy.id in Next(w, a).tables.records
    ensures var t', namespace := Next(w, a).tables, NamespaceOf(a.copy.name, a.input.desired);
            && t'.records[a.copy.id].namespace == namespace && t'.records[a.copy.id].activeKey == Some(WorkspaceKey(namespace))
            && t'.records[a.copy.id].name == a.copy.name
            && forall other :: other in t'.records && other != a.copy.id ==> t'.records[other].activeKey != Some(WorkspaceKey(namespace))
  {
    assert Outdates(a.copy, w.tables);
    UpdateShape(w, a);
    assert !KeyTaken(w.tables, Decide(w, a).value.row.activeKey, a.copy.id);
  }

  /** ... so that no other unarchived workspace is in it. */
  lemma MovedWorkspaceIsAlone(w: World, a: Action, other: Id)
    requires Commits(w, a) && a.UpdateRequest? && RevisionInv(w) && IdentityInv(w) && a.kind == Workspace && a.input.desired.workspace.Some?
    requires other in Next(w, a).tables.records && other != a.copy.id
    requires Next(w, a).tables.records[other].kind == Workspace && !Next(w, a).tables.records[other].archived
    ensures Next(w, a).tables.records[other].namespace != NamespaceOf(a.copy.name, a.input.desired)
  {
    UpdatedWorkspaceMoves(w, a);
    NextKeepsRows(w, a);
    assert Identified(Next(w, a).tables.records[other]);
  }

  /** Under an unused key, an update that read the present row is accepted exactly when the row and the request allow it. */
  lemma UpdateCommitsIff(w: World, a: Action)
    requires Enabled(w, a) && a.UpdateRequest? && RowsKeyed(w.tables) && (a.p.userId, a.key) !in w.tables.opIndex
    requires a.copy.id in w.tables.records && w.tables.records[a.copy.id] == a.copy
    ensures var specified := a.input.desired.workspace.Some? || a.input.desired.application.Some?;
            Commits(w, a) <==>
              && !a.copy.archived && a.copy.kind == a.kind && a.copy.syncState != Deleting && a.copy.state != Lifecycle.Archived
              && (a.p.admin || a.copy.moduleId == a.p.moduleId)
              && (a.kind == Workspace && a.input.projectId != "" ==> a.copy.parent == OfProject(a.input.projectId))
              && (a.kind != Workspace && a.input.workspaceId.Some? ==> a.copy.parent == OfRecord(a.input.workspaceId.value))
              && (specified ==> WellSpecified(a.kind, a.input.desired))
              && (a.input.name == "" || a.input.name == a.copy.name)
              && (a.kind == Workspace && specified ==>
                    && a.copy.desired.workspace.Some?
                    && (NamespaceOf(a.copy.name, a.copy.desired) == NamespaceOf(a.copy.name, a.input.desired) || a.children == 0)
                    && !KeyTaken(w.tables, Some(WorkspaceKey(NamespaceOf(a.copy.name, a.input.desired))), a.copy.id))
  {
  }

  // ------------------------------------------------------------ delete and adopt

  /** A deleted row is marked, and nothing else about it changes. */
  lemma DeletedRow(w: World, a: Action)
    requires Commits(w, a) && a.DeleteRequest? && RowsKeyed(w.tables)
    ensures a.id in w.tables.records
    ensures Next(w, a).tables.records == w.tables.records[a.id := w.tables.records[a.id].(syncState := Deleting, updatedAt := w.now)]
  {
  }

  /** A delete request under an unused key is accepted exactly for a live row of its kind in scope that has no live children and is not being deleted. */
  lemma DeleteCommitsIff(w: World, a: Action)
    requires Enabled(w, a) && a.DeleteRequest? && (a.p.userId, a.key) !in w.tables.opIndex
    ensures Commits(w, a) <==>
              && a.id in w.tables.records
              && var row := w.tables.records[a.id];
                 && row.kind == a.kind && !row.archived && (a.p.admin || row.moduleId == a.p.moduleId) && row.syncState != Deleting
                 && forall c :: c in w.tables.records && w.tables.records[c].parent == OfRecord(a.id) ==> w.tables.records[c].archived
  {
    assert HasChildren(w.tables, a.id) <==>
           !forall c :: c in w.tables.records && w.tables.records[c].parent == OfRecord(a.id) ==> w.tables.records[c].archived;
  }

  /** Only an administrator adopts, and only a discovered cluster that is not archived. */
  lemma AdoptClusterCommitsIff(w: World, a: Action)
    requires Enabled(w, a) && a.AdoptClusterRequest? && RowsKeyed(w.tables) && (a.p.userId, a.key) !in w.tables.opIndex
    ensures Commits(w, a) <==>
              && a.p.admin && a.id in w.tables.records
              && w.tables.records[a.id].kind == Cluster && w.tables.records[a.id].state == Discovered && !w.tables.records[a.id].archived
    ensures Commits(w, a) ==>
              Next(w, a).tables.records ==
              w.tables.records[a.id := w.tables.records[a.id].(state := Adopting, syncState := Pending, updatedAt := w.now)]
  {
  }

  /** Where an adopted row may be filed: a workspace in a project, an application in a live workspace of its own namespace. */
  predicate Files(w: World, row: Record, input: ResourceInput) {
    if row.kind == Workspace then input.projectId != "" && input.projectId in w.projects
    else
      && input.workspaceId.Some? && input.workspaceId.value in w.tables.records
      && var parent := w.tables.records[input.workspaceId.value];
         && parent.kind == Workspace && !parent.archived && parent.syncState != Deleting && parent.state != Unassigned && parent.state != Lifecycle.Archived
         && parent.desired.workspace.Some? && NamespaceOf(parent.name, parent.desired) == row.namespace
  }

  /** Only an administrator adopts, and only a row that was imported, can be expressed, and is filed nowhere yet. */
  lemma AdoptExistingCommitsIff(w: World, a: Action)
    requires Enabled(w, a) && a.AdoptExistingRequest? && (a.p.userId, a.key) !in w.tables.opIndex
    ensures Commits(w, a) <==>
              && a.p.admin && a.kind != Cluster && a.id in w.tables.records
              && var row := w.tables.records[a.id];
                 && row.kind == a.kind && !row.archived && row.state == Unassigned && row.source == Engine && !row.unsupported && row.parent == NoParent
                 && Files(w, row, a.input)
  {
  }

  /** An adopted row becomes the API's, filed where the administrator said, with the scope of its new parent. */
  lemma AdoptedExistingRow(w: World, a: Action)
    requires Commits(w, a) && a.AdoptExistingRequest? && RowsKeyed(w.tables)
    ensures a.id in w.tables.records && a.id in Next(w, a).tables.records
    ensures var before, row := w.tables.records[a.id], Next(w, a).tables.records[a.id];
            && row == before.(syncState := Pending, state := Adopting, source := Api, updatedAt := w.now,
                              parent := row.parent, project := row.project, moduleId := row.moduleId)
            && (a.kind == Workspace ==>
                  && a.input.projectId in w.projects && row.parent == OfProject(a.input.projectId)
                  && row.project == a.input.projectId && row.moduleId == w.projects[a.input.projectId])
            && (a.kind == Application ==>
                  && a.input.workspaceId.Some? && a.input.workspaceId.value in w.tables.records
                  && row.parent == OfRecord(a.input.workspaceId.value)
                  && row.project == w.tables.records[a.input.workspaceId.value].project
                  && row.moduleId == w.tables.records[a.input.workspaceId.value].moduleId)
  {
  }

  // ------------------------------------------------------------------- afterwards

  /** What a request commits can be carried out at once: its event passes the row check, except an update of a row the API does not own. */
  lemma CommitIsProjectableIff(w: World, a: Action)
    requires Commits(w, a) && RevisionInv(w) && IdentityInv(w) && !a.RepairRow?
    ensures TargetOf(a) in Next(w, a).tables.records && IdsOf(a).event in Next(w, a).tables.events
    ensures var t' := Next(w, a).tables;
            MayProject(t'.records[TargetOf(a)], t'.events[IdsOf(a).event]) <==> !(a.UpdateRequest? && t'.records[TargetOf(a)].source != Api)
  {
    CommitLeaves(w, a);
    NextKeepsRows(w, a);
    assert Identified(Next(w, a).tables.records[TargetOf(a)]);
    RowAwaitsItsEvent(w, a);
  }

  /** The row as the row check of its event wants it. */
  lemma RowAwaitsItsEvent(w: World, a: Action)
    requires Commits(w, a) && RevisionInv(w) && !a.RepairRow?
    ensures TargetOf(a) in Next(w, a).tables.records
    ensures var row := Next(w, a).tables.records[TargetOf(a)];
            && !row.archived && (a.DeleteRequest? <==> row.syncState == Deleting)
            && (a.CreateRequest? || a.AdoptExistingRequest? ==> row.source == Api)
  {
    if a.UpdateRequest? {
      UpdatedRow(w, a);
      UpdateShape(w, a);
    } else if a.CreateRequest? {
      CreatedRow(w, a);
    } else if a.DeleteRequest? {
      DeletedRow(w, a);
    } else {
      AdoptionsAreLive(w, a);
    }
  }

  lemma AdoptionsAreLive(w: World, a: Action)
    requires Commits(w, a) && RowsKeyed(w.tables) && (a.AdoptClusterRequest? || a.AdoptExistingRequest?)
    ensures a.id in Next(w, a).tables.records
    ensures var row := Next(w, a).tables.records[a.id];
            !row.archived && row.syncState == Pending && (a.AdoptExistingRequest? ==> row.source == Api)
  {
  }

  /** Two client requests have one fingerprint exactly when they ask the same of the same row on behalf of the same user. */
  lemma FingerprintsTellApart(a: Action, b: Action)
    requires ClientRequest(a) && ClientRequest(b)
    ensures FingerprintOf(a) == FingerprintOf(b) <==>
              && a.p.userId == b.p.userId
              && (a.CreateRequest? <==> b.CreateRequest?) && (a.UpdateRequest? <==> b.UpdateRequest?) && (a.DeleteRequest? <==> b.DeleteRequest?)
              && (a.AdoptClusterRequest? <==> b.AdoptClusterRequest?) && (a.AdoptExistingRequest? <==> b.AdoptExistingRequest?)
              && (a.CreateRequest? ==> a.kind == b.kind && a.input == b.input)
              && (a.UpdateRequest? ==> a.kind == b.kind && a.copy.id == b.copy.id && a.input == b.input)
              && (a.DeleteRequest? ==> a.kind == b.kind && a.id == b.id)
              && (a.AdoptClusterRequest? ==> a.id == b.id)
              && (a.AdoptExistingRequest? ==> a.kind == b.kind && a.id == b.id && a.input == b.input)
  {
  }
}
