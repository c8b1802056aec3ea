/**
  The gateway as the program runs it: an object whose methods read and write the
  rows of its database statement by statement. Each method is one transaction and
  is proved to leave the tables that the transaction's decision prescribes.
*/
module ResourceGatewayService {
  import opened Prelude
  import opened GatewayModel
  import opened GatewaySteps

  class ResourceGateway {
    var records: map<Id, Record>
    var operations: map<Id, Operation>
    var opIndex: map<(nat, string), Id>
    var events: map<Id, Event>
    var eventIndex: map<Id, Id>
    var engine: map<EngineKey, EngineObject>
    const projects: map<string, string>

    constructor (projects: map<string, string>)
      ensures this.projects == projects && engine == map[]
      ensures Rows() == Tables(map[], map[], map[], map[], map[])
    {
      this.projects := projects;
      records, operations, opIndex, events, eventIndex := map[], map[], map[], map[], map[];
      engine := map[];
    }

    /** The five tables as one value. */
    ghost function Rows(): Tables
      reads this
    {
      Tables(records, operations, opIndex, events, eventIndex)
    }

    /** The stored operation under a key, if any, with the verdict on its fingerprint. */
    method LookUp(actor: nat, key: string, fp: Fingerprint) returns (found: bool, reply: Result<Operation, Error>)
      ensures found <==> FindIdempotent(Rows(), actor, key, fp).Some?
      ensures found ==> reply == Reply(FindIdempotent(Rows(), actor, key, fp).value)
    {
      found, reply := false, Failure(NotFound);
      if (actor, key) in opIndex && opIndex[(actor, key)] in operations {
        var op := operations[opIndex[(actor, key)]];
        found := true;
        if op.fingerprint != fp {
          reply := Failure(IdempotencyConflict);
        } else {
          reply := Success(op);
        }
      }
    }

    method InsertOperation(op: Operation, event: Event)
      modifies this
      ensures Rows() == Enqueue(old(Rows()), op, event) && engine == old(engine)
    {
      operations := operations[op.id := op];
      opIndex := opIndex[(op.actor, op.key) := op.id];
      events := events[event.id := event];
      eventIndex := eventIndex[op.id := event.id];
    }

    method IsKeyTaken(key: Option<ActiveKey>, self: Id) returns (taken: bool)
      ensures taken == KeyTaken(Rows(), key, self)
    {
      taken := false;
      var left := records.Keys;
      while left != {} && !taken
        invariant left <= records.Keys
        invariant taken ==> KeyTaken(Rows(), key, self)
        invariant !taken ==> forall other :: other in records && other !in left && other != self && key.Some? ==> records[other].activeKey != key
        decreases left
      {
        var other :| other in left;
        left := left - {other};
        if key.Some? && other != self && records[other].activeKey == key {
          taken := true;
        }
      }
    }

    method CountChildren(parent: Id) returns (children: nat)
      ensures children > 0 <==> HasChildren(Rows(), parent)
    {
      children := 0;
      var left := records.Keys;
      while left != {}
        invariant left <= records.Keys
        invariant children > 0 ==> HasChildren(Rows(), parent)
        invariant children == 0 ==> forall c :: c in records && c !in left && !records[c].archived ==> records[c].parent != OfRecord(parent)
        decreases left
      {
        var c :| c in left;
        left := left - {c};
        if !records[c].archived && records[c].parent == OfRecord(parent) {
          children := children + 1;
        }
      }
    }

    method Create(p: Principal, kind: Kind, input: ResourceInput, key: string, ids: Ids, now: Time) returns (reply: Result<Operation, Error>)
      requires FreshIds(Rows(), ids)
      modifies this
      ensures var v := DecideCreate(old(Rows()), projects, p, kind, input, key, ids, now);
              Rows() == Write(old(Rows()), v) && reply == Reply(v)
      ensures engine == old(engine)
    {
      if input.name == "" {
        return Failure(NameRequired);
      }
      if !ValidDesired(kind, input.desired, false) {
        return Failure(InvalidDesired);
      }
      var fp := Request(p.userId, kind, CreateVerb, None, Some(input));
      var found, stored := LookUp(p.userId, key, fp);
      if found {
        return stored;
      }
      var row := Record(ids.record, kind, input.name, "", NoParent, "", "", None, input.desired, 1, 0, Pending, Api, Plain, false, false, now);
      if kind == Workspace {
        if input.projectId == "" {
          return Failure(ProjectRequired);
        }
        if input.projectId !in projects || !(p.admin || projects[input.projectId] == p.moduleId) {
          return Failure(ProjectNotFound);
        }
        var namespace := input.name;
        if input.desired.workspace.Some? && input.desired.workspace.value.namespace != "" {
          namespace := input.desired.workspace.value.namespace;
        }
        row := row.(parent := OfProject(input.projectId), project := input.projectId, moduleId := projects[input.projectId], namespace := namespace);
      } else {
        if input.workspaceId.None? {
          return Failure(WorkspaceRequired);
        }
        var w := input.workspaceId.value;
        if w !in records || records[w].kind != Workspace || records[w].archived || records[w].syncState == Deleting
           || records[w].state == Archived || !InScope(p, records[w]) {
          return Failure(WorkspaceNotFound);
        }
        var namespace := EffectiveNamespace(records[w].name, records[w].desired);
        if namespace.Failure? {
          return Failure(namespace.error);
        }
        row := row.(parent := OfRecord(w), project := records[w].project, moduleId := records[w].moduleId, namespace := namespace.value);
      }
      row := row.(activeKey := Some(ActiveIdentity(kind, row.name, row.namespace)));
      var taken := IsKeyTaken(row.activeKey, row.id);
      if taken {
        return Failure(UniqueConflict);
      }
      records := records[row.id := row];
      var op := NewOperation(ids.op, key, p.userId, row.moduleId, fp, row.id, Apply);
      InsertOperation(op, NewEvent(ids.event, op.id, row.id, Apply, row.desiredRevision, now));
      reply := Success(op);
    }

    /** The transaction of an update; `copy` and `children` were read before it began. */
    method CommitUpdate(p: Principal, copy: Record, kind: Kind, input: ResourceInput, children: nat, key: string, ids: Ids, now: Time)
      returns (reply: Result<Operation, Error>)
      modifies this
      ensures var v := DecideUpdate(old(Rows()), p, copy, kind, input, children, key, ids, now);
              Rows() == Write(old(Rows()), v) && reply == Reply(v)
      ensures engine == old(engine)
      ensures var v := DecideUpdate(old(Rows()), p, copy, kind, input, children, key, ids, now);
              v.Commit? && RowsKeyed(old(Rows())) ==>
                && copy.id in records && records[copy.id].syncState == Pending
                && (input.desired.workspace.None? && input.desired.application.None? ==> records[copy.id].desired == copy.desired)
                && (input.desired.workspace.Some? || input.desired.application.Some? ==>
                      records[copy.id].desired == input.desired && records[copy.id].desiredRevision == copy.desiredRevision + 1)
                && (kind == Workspace && input.desired.workspace.Some? ==>
                      var namespace := if input.desired.workspace.value.namespace == "" then copy.name else input.desired.workspace.value.namespace;
                      records[copy.id].namespace == namespace && records[copy.id].activeKey == Some(WorkspaceKey(namespace)))
    {
      var refused := PrecheckUpdate(p, copy, kind, input, children);
      if refused.Some? {
        return Failure(refused.value);
      }
      var fp := Request(p.userId, kind, UpdateVerb, Some(copy.id), Some(input));
      var found, stored := LookUp(p.userId, key, fp);
      if found {
        return stored;
      }
      var desired, revision := copy.desired, copy.desiredRevision;
      if HasDesired(input.desired) {
        desired, revision := input.desired, copy.desiredRevision + 1;
      }
      if copy.id !in records || records[copy.id].archived || records[copy.id].desiredRevision != copy.desiredRevision
         || records[copy.id].syncState == Deleting || records[copy.id].state == Archived {
        return Failure(ConcurrentModification);
      }
      var row := records[copy.id].(desired := desired, desiredRevision := revision, syncState := Pending, updatedAt := now);
      if kind == Workspace && HasDesired(input.desired) {
        // The checks above let only specifications with a namespace through.
        var namespace := EffectiveNamespace(copy.name, input.desired);
        row := row.(namespace := namespace.value, activeKey := Some(ActiveIdentity(kind, copy.name, namespace.value)));
        var taken := IsKeyTaken(row.activeKey, row.id);
        if taken {
          return Failure(UniqueConflict);
        }
      }
      records := records[row.id := row];
      var op := NewOperation(ids.op, key, p.userId, row.moduleId, fp, row.id, Apply);
      InsertOperation(op, NewEvent(ids.event, op.id, row.id, Apply, revision, now));
      reply := Success(op);
    }

    method Delete(p: Principal, id: Id, kind: Kind, key: string, ids: Ids, now: Time) returns (reply: Result<Operation, Error>)
      modifies this
      ensures var v := DecideDelete(old(Rows()), p, id, kind, key, ids, now);
              Rows() == Write(old(Rows()), v) && reply == Reply(v)
      ensures engine == old(engine)
    {
      var fp := Request(p.userId, kind, DeleteVerb, Some(id), None);
      var found, stored := LookUp(p.userId, key, fp);
      if found {
        return stored;
      }
      if id !in records || records[id].kind != kind || records[id].archived || !InScope(p, records[id]) {
        return Failure(NotFound);
      }
      var children := CountChildren(id);
      if children > 0 {
        return Failure(ChildrenExist);
      }
      if records[id].syncState == Deleting {
        return Failure(ConcurrentModification);
      }
      var row := records[id].(syncState := Deleting, updatedAt := now);
      records := records[row.id := row];
      var op := NewOperation(ids.op, key, p.userId, row.moduleId, fp, row.id, EventAction.Delete);
      InsertOperation(op, NewEvent(ids.event, op.id, row.id, EventAction.Delete, row.desiredRevision, now));
      reply := Success(op);
    }

    method AdoptCluster(p: Principal, id: Id, key: string, ids: Ids, now: Time) returns (reply: Result<Operation, Error>)
      modifies this
      ensures var v := DecideAdoptCluster(old(Rows()), p, id, key, ids, now);
              Rows() == Write(old(Rows()), v) && reply == Reply(v)
      ensures engine == old(engine)
    {
      if !p.admin {
        return Failure(Forbidden);
      }
      var fp := Request(p.userId, Cluster, AdoptClusterVerb, Some(id), None);
      var found, stored := LookUp(p.userId, key, fp);
      if found {
        return stored;
      }
      if id !in records || records[id].kind != Cluster {
        return Failure(NotFound);
      }
      if records[id].state != Discovered {
        return Failure(NotAwaitingAdoption);
      }
      if records[id].archived {
        return Failure(ConcurrentModification);
      }
      var row := records[id].(state := Adopting, syncState := Pending, updatedAt := now);
      records := records[row.id := row];
      var op := NewOperation(ids.op, key, p.userId, "", fp, id, Adopt);
      InsertOperation(op, NewEvent(ids.event, op.id, id, Adopt, row.desiredRevision, now));
      reply := Success(op);
    }

    method AdoptExisting(p: Principal, id: Id, kind: Kind, input: ResourceInput, key: string, ids: Ids, now: Time)
      returns (reply: Result<Operation, Error>)
      modifies this
      ensures var v := DecideAdoptExisting(old(Rows()), projects, p, id, kind, input, key, ids, now);
              Rows() == Write(old(Rows()), v) && reply == Reply(v)
      ensures engine == old(engine)
    {
      if !p.admin {
        return Failure(Forbidden);
      }
      if kind == Cluster {
        return Failure(UnsupportedKind);
      }
      var fp := Request(p.userId, kind, AdoptExistingVerb, Some(id), Some(input));
      var found, stored := LookUp(p.userId, key, fp);
      if found {
        return stored;
      }
      if id !in records || records[id].archived || records[id].kind != kind || records[id].state != Unassigned || records[id].source != Engine {
        return Failure(NotFound);
      }
      var row := records[id];
      if row.unsupported {
        return Failure(CapabilityUnsupported);
      }
      row := row.(syncState := Pending, state := Adopting, source := Api, updatedAt := now);
      if kind == Workspace {
        if input.projectId == "" {
          return Failure(ProjectRequired);
        }
        if input.projectId !in projects {
          return Failure(ProjectNotFound);
        }
        row := row.(parent := OfProject(input.projectId), project := input.projectId, moduleId := projects[input.projectId]);
      } else {
        if input.workspaceId.None? {
          return Failure(WorkspaceRequired);
        }
        var w := input.workspaceId.value;
        if w !in records || records[w].archived || records[w].kind != Workspace || records[w].syncState == Deleting
           || records[w].state == Unassigned || records[w].state == Archived {
          return Failure(ParentUnavailable);
        }
        var namespace := EffectiveNamespace(records[w].name, records[w].desired);
        if namespace.Failure? {
          return Failure(namespace.error);
        }
        if namespace.value != row.namespace {
          return Failure(NamespaceMismatch);
        }
        row := row.(parent := OfRecord(w), project := records[w].project, moduleId := records[w].moduleId);
      }
      if records[id].parent != NoParent {
        return Failure(ConcurrentModification);
      }
      records := records[row.id := row];
      var op := NewOperation(ids.op, key, p.userId, row.moduleId, fp, row.id, EventAction.AdoptExisting);
      InsertOperation(op, NewEvent(ids.event, op.id, row.id, EventAction.AdoptExisting, row.desiredRevision, now));
      reply := Success(op);
    }

    // ------------------------------------------------------------- the worker

    /** The oldest event that is due and unclaimed, or claimed under a lease that ran out. */
    method OldestClaimable(now: Time) returns (e: Option<Id>)
      ensures e.None? ==> forall c :: c in events ==> !Claimable(events[c], now)
      ensures e.Some? ==> NextClaim(Rows(), e.value, now)
    {
      e := None;
      var left := events.Keys;
      while left != {}
        invariant left <= events.Keys
        invariant e.None? ==> forall c :: c in events && c !in left ==> !Claimable(events[c], now)
        invariant e.Some? ==>
                    && e.value in events && Claimable(events[e.value], now)
                    && forall c :: c in events && c !in left && Claimable(events[c], now) ==> events[e.value].createdAt <= events[c].createdAt
        decreases left
      {
        var c :| c in left;
        left := left - {c};
        if Claimable(events[c], now) && (e.None? || events[c].createdAt < events[e.value].createdAt) {
          e := Some(c);
        }
      }
    }

    /** Store an event and move its operation unless that is terminal. */
    method StoreEvent(e: Event, state: OpState)
      modifies this
      ensures Rows() == Settle(old(Rows()), e, state) && engine == old(engine)
    {
      events := events[e.id := e];
      if e.opId in operations && operations[e.opId].state != OpSucceeded && operations[e.opId].state != OpFailed {
        operations := operations[e.opId := operations[e.opId].(state := state)];
      }
    }

    method DiscardEvent(e: Event, token: Token)
      modifies this
      ensures Rows() == Discard(old(Rows()), e, token) && engine == old(engine)
    {
      if e.id in events && !events[e.id].processed && events[e.id].claim.Some? && events[e.id].claim.value.token == token {
        var claimed := events[e.id];
        StoreEvent(claimed.(processed := true, claim := None), OpFailed);
      }
    }

    /** One more failed attempt: back off, or give up after the third. */
    method CountFailure(held: Event, now: Time)
      modifies this
      ensures Rows() == Settle(old(Rows()), FailedAttempt(held, now), FailedOpState(held)) && engine == old(engine)
    {
      var claimed := held.(attempts := held.attempts + 1, claim := None);
      if claimed.attempts >= MAX_OUTBOX_ATTEMPTS {
        StoreEvent(claimed.(processed := true), OpFailed);
      } else {
        StoreEvent(claimed.(availableAt := now + claimed.attempts), OpRetrying);
      }
    }

    method FailEvent(e: Event, token: Token, now: Time)
      modifies this
      ensures Rows() == GatewayModel.FailEvent(old(Rows()), e, token, now) && engine == old(engine)
    {
      if e.id in events && !events[e.id].processed && events[e.id].claim.Some? && events[e.id].claim.value.token == token {
        CountFailure(events[e.id], now);
      }
    }

    /** The columns a finished projection leaves in the worker's copy of the row. */
    method FinishCopy(copy: Record, action: EventAction, failed: bool, attempts: nat) returns (row: Record)
      ensures forall current: Record, e: Event, now: Time | e.action == action ::
                FinishedRow(current, copy, e, failed, attempts, now) == WithColumns(current, row, action, failed, copy.desiredRevision, now)
      ensures forall e: Event | e.action == action :: row.activeKey == FinishedKey(copy, e, failed)
    {
      if failed {
        return copy.(syncState := if attempts + 1 >= MAX_OUTBOX_ATTEMPTS then Failed else Retrying);
      }
      row := copy.(syncState := Synced);
      if action == Adopt || action == EventAction.AdoptExisting {
        row := row.(state := Adopted);
      } else if action == EventAction.Delete {
        row := row.(state := Archived, archived := true, activeKey := None);
      }
    }

    /** The finishing transaction; a refused row update rolls back what it wrote before. */
    method FinishEvent(e: Event, token: Token, copy: Record, failed: bool, now: Time) returns (error: bool)
      modifies this
      ensures error <==> Holds(old(Rows()), e.id, token) && FinishRefused(old(Rows()), copy, e, failed)
      ensures Rows() == Finish(old(Rows()), e, token, copy, failed, now) && engine == old(engine)
    {
      error := false;
      if !(e.id in events && !events[e.id].processed && events[e.id].claim.Some? && events[e.id].claim.value.token == token) {
        return;
      }
      var operationsBefore, eventsBefore := operations, events;
      var held := events[e.id];
      if failed {
        CountFailure(held, now);
      } else {
        StoreEvent(held.(processed := true, claim := None), OpSucceeded);
      }
      var row := FinishCopy(copy, e.action, failed, held.attempts);
      error := UpdateFinishedRow(e, copy, row, failed, now);
      if error {
        operations, events := operationsBefore, eventsBefore;
      }
    }

    /** The guarded row update at the end of the finishing transaction; the unique index may refuse its key. */
    method UpdateFinishedRow(e: Event, copy: Record, row: Record, failed: bool, now: Time) returns (error: bool)
      modifies this
      ensures error <==> MayFinishRow(old(Rows()), copy, e) && KeyTaken(old(Rows()), row.activeKey, copy.id)
      ensures Rows() ==
              if error || !MayFinishRow(old(Rows()), copy, e) then old(Rows())
              else PutRow(old(Rows()), WithColumns(old(records)[copy.id], row, e.action, failed, copy.desiredRevision, now))
      ensures engine == old(engine)
    {
      error := false;
      if copy.id !in records || records[copy.id].desiredRevision != copy.desiredRevision {
        return;
      }
      var applies := e.action == Apply || e.action == EventAction.AdoptExisting;
      if applies && (records[copy.id].archived || records[copy.id].syncState == Deleting
                     || records[copy.id].state == Archived || records[copy.id].source != Api) {
        return;
      }
      error := IsKeyTaken(row.activeKey, copy.id);
      if error {
        return;
      }
      var stored := records[copy.id].(syncState := row.syncState, state := row.state, archived := row.archived, activeKey := row.activeKey, updatedAt := now);
      if !failed && applies {
        stored := stored.(appliedRevision := copy.desiredRevision);
      }
      records := records[stored.id := stored];
    }

    /** Bring the Engine object of a row in line with the row, or remove it; a call that fails may have landed all the same. */
    method ProjectRow(row: Record, action: EventAction, failed: bool, landed: bool) returns (error: bool)
      modifies this
      ensures Rows() == old(Rows())
      ensures error <==> failed || !Reaches(row, action)
      ensures engine == if Reaches(row, action) && (!failed || landed) then Project(old(engine), row, action) else old(engine)
      ensures var refused := (action == Apply || action == EventAction.AdoptExisting) && Inexpressible(row);
              && error == (failed || refused)
              && Effect(old(engine), engine, row, action, !refused && (!failed || landed))
    {
      if action in {Apply, EventAction.AdoptExisting} && !Adaptable(row) {
        return true;
      }
      if (!failed || landed) && action != Adopt && row.kind != Cluster {
        if action == EventAction.Delete {
          engine := engine - {ObjectKey(row)};
        } else if ObjectKey(row) !in engine || engine[ObjectKey(row)] != Projection(row) {
          engine := engine[ObjectKey(row) := Projection(row)];
        }
      }
      error := failed;
    }

    /** One pass of the worker: claim the oldest event, check its row, call the Engine, finish. */
    method ReconcileOne(token: Token, now: Time, unavailable: bool, failed: bool, landed: bool) returns (e: Option<Id>, error: bool)
      modifies this
      ensures e.None? ==> Rows() == old(Rows()) && engine == old(engine) && forall c :: c in events ==> !Claimable(events[c], now)
      ensures e.Some? ==> NextClaim(old(Rows()), e.value, now)
      ensures e.Some? ==> (Rows(), engine) == Reconciled(old(Rows()), old(engine), e.value, token, unavailable, failed, landed, now)
      ensures e.Some? && RowsKeyed(old(Rows())) ==>
              var event := old(events)[e.value];
              if unavailable || event.resourceId !in old(records) || !Authorised(old(records)[event.resourceId], event)
              then engine == old(engine) && records == old(records)
              else
                var row := old(records)[event.resourceId];
                var refused := (event.action == Apply || event.action == EventAction.AdoptExisting) && Inexpressible(row);
                Effect(old(engine), engine, row, event.action, !refused && (!failed || landed))
    {
      error := false;
      e := OldestClaimable(now);
      if e.None? {
        return;
      }
      events := events[e.value := events[e.value].(claim := Some(Claim(token, now + LEASE)))];
      var event := events[e.value];
      if unavailable || event.resourceId !in records {
        FailEvent(event, token, now);
        return;
      }
      var row := records[event.resourceId];
      if !MayProject(row, event) {
        DiscardEvent(event, token);
        return;
      }
      var undone := ProjectRow(row, event.action, failed, landed);
      error := FinishEvent(event, token, row, undone, now);
    }

    // ---------------------------------------------------------- background loops

    method IsOutstanding(resource: Id) returns (found: bool)
      ensures found == Outstanding(Rows(), resource)
    {
      found := false;
      var left := events.Keys;
      while left != {} && !found
        invariant left <= events.Keys
        invariant found ==> Outstanding(Rows(), resource)
        invariant !found ==> forall e :: e in events && e !in left && events[e].resourceId == resource ==> events[e].processed
        decreases left
      {
        var e :| e in left;
        left := left - {e};
        found := events[e].resourceId == resource && !events[e].processed;
      }
    }

    method EnqueueRepair(copy: Record, key: string, ids: Ids, now: Time)
      requires copy.id in records
      modifies this
      ensures var v := DecideRepair(old(Rows()), copy, key, ids, now);
              && (v.Some? ==> Rows() == Enqueue(old(Rows()), v.value.op, v.value.event))
              && (v.None? ==> Rows() == old(Rows()))
      ensures engine == old(engine)
      ensures if exists e :: e in old(events) && old(events)[e].resourceId == copy.id && !old(events)[e].processed
              then Rows() == old(Rows())
              else
                && records == old(records) && ids.event in events
                && events == old(events)[ids.event := Event(ids.event, ids.op, copy.id, Apply, copy.desiredRevision, 0, now, false, None, now)]
    {
      var found := IsOutstanding(copy.id);
      if !found {
        var op := NewOperation(ids.op, key, 0, copy.moduleId, Repair(copy.desired), copy.id, Apply);
        InsertOperation(op, NewEvent(ids.event, op.id, copy.id, Apply, copy.desiredRevision, now));
      }
    }

    /**
      The repair loop's round for one row it has read: a failed row backs off, a row the Engine
      shows as desired and applied needs nothing, any other one has an open event afterwards.
    */
    method EnsureRow(copy: Record, key: string, ids: Ids, now: Time) returns (error: bool)
      requires copy.id in records && Repairable(copy)
      modifies this
      ensures var backsOff := copy.syncState == Failed && now - copy.updatedAt < 30;
              var lags := !Shows(engine, copy) || copy.appliedRevision < copy.desiredRevision;
              && (error <==> !backsOff && ObjectKey(copy) in engine && Inexpressible(copy))
              && (error || backsOff || !lags ==> Rows() == old(Rows()))
              && (!error && !backsOff && lags ==>
                    Outstanding(Rows(), copy.id) && records == old(records)
                    && (Outstanding(old(Rows()), copy.id) ==> Rows() == old(Rows())))
      ensures engine == old(engine)
    {
      error := false;
      if copy.syncState == Failed && now - copy.updatedAt < REPAIR_BACKOFF {
        return;
      }
      if ObjectKey(copy) in engine {
        if !Adaptable(copy) {
          return true;
        }
        if engine[ObjectKey(copy)] == Projection(copy) && copy.appliedRevision >= copy.desiredRevision {
          return;
        }
      }
      ghost var before := Rows();
      EnqueueRepair(copy, key, ids, now);
      if !Outstanding(before, copy.id) {
        assert ids.event in events && events[ids.event].resourceId == copy.id && !events[ids.event].processed;
      }
    }

    method MarkMissing(copy: Record, now: Time)
      modifies this
      ensures Rows() == GatewayModel.MarkMissing(old(Rows()), copy, now) && engine == old(engine)
      ensures if copy.syncState != Deleting && copy.id in old(records) && !old(records)[copy.id].archived
                 && old(records)[copy.id].desiredRevision == copy.desiredRevision && old(records)[copy.id].id == copy.id
              then records == old(records)[copy.id := old(records)[copy.id].(syncState := Stale, updatedAt := now)]
              else copy.id !in old(records) || old(records)[copy.id].id == copy.id ==> records == old(records)
    {
      if copy.syncState == Deleting {
        return;
      }
      if copy.id in records && records[copy.id].desiredRevision == copy.desiredRevision && !records[copy.id].archived {
        var row := records[copy.id].(syncState := Stale, updatedAt := now);
        records := records[row.id := row];
      }
    }
  }

  /** Row `current` with the five columns the finishing transaction takes from `row`, and what was applied. */
  function WithColumns(current: Record, row: Record, action: EventAction, failed: bool, revision: nat, now: Time): Record {
    var stored := current.(syncState := row.syncState, state := row.state, archived := row.archived, activeKey := row.activeKey, updatedAt := now);
    if !failed && action in {Apply, EventAction.AdoptExisting} then stored.(appliedRevision := revision) else stored
  }

  /** The tables and the Engine after one uninterrupted pass of the worker over event `e`. */
  function Reconciled(t: Tables, engine: map<EngineKey, EngineObject>, e: Id, token: Token, unavailable: bool, failed: bool, landed: bool, now: Time)
    : (Tables, map<EngineKey, EngineObject>)
    requires e in t.events
  {
    var claimed := ClaimRow(t, e, token, now);
    match Checked(claimed, claimed.events[e], token, unavailable)
    case Failing(event, _) => (GatewayModel.FailEvent(claimed, event, token, now), engine)
    case Discarding(event, _) => (Discard(claimed, event, token), engine)
    case Ready(event, _, row) =>
      (Finish(claimed, event, token, row, failed || !Reaches(row, event.action), now),
       if Reaches(row, event.action) && (!failed || landed) then Project(engine, row, event.action) else engine)
    case _ => (claimed, engine)
  }

  /** The world in which worker `i` has claimed event `e` and checked its row. */
  function ClaimedAndChecked(w: World, i: WorkerId, token: Token, e: Id, unavailable: bool): World
    requires Enabled(w, ClaimEvent(i, token, e))
  {
    Next(Next(w, ClaimEvent(i, token, e)), CheckRow(i, unavailable))
  }

  /**
    One pass as steps of the step relation: after claim and check the failure is counted, or
    the event discarded, or the Engine called and the event finished.
  */
  ghost predicate Passes(w: World, w': World, i: WorkerId, token: Token, e: Id, unavailable: bool, failed: bool, landed: bool)
    requires Enabled(w, ClaimEvent(i, token, e))
  {
    var w2 := ClaimedAndChecked(w, i, token, e, unavailable);
    i in w2.workers &&
    var phase := w2.workers[i];
    match phase
    case Failing(_, _) => w' == Next(w2, FailClaim(i))
    case Discarding(_, _) => w' == Next(w2, DiscardEvent(i))
    case Ready(event, _, row) =>
      var reaches := Reaches(row, event.action);
      var w3 := Next(w2, CallEngine(i, failed || !reaches, landed && reaches));
      Enabled(w3, FinishEvent(i)) && w' == Next(w3, FinishEvent(i))
    case _ => false
  }

  lemma CheckedWorld(w: World, i: WorkerId, token: Token, e: Id, unavailable: bool)
    requires Enabled(w, ClaimEvent(i, token, e))
    ensures var t := ClaimRow(w.tables, e, token, w.now);
            ClaimedAndChecked(w, i, token, e, unavailable) ==
            w.(tables := t, workers := w.workers[i := Checked(t, t.events[e], token, unavailable)], tokens := w.tokens + {token})
  {
    var t := ClaimRow(w.tables, e, token, w.now);
    assert Next(w, ClaimEvent(i, token, e)) == w.(tables := t, workers := w.workers[i := Claimed(t.events[e], token)], tokens := w.tokens + {token});
    assert w.workers[i := Claimed(t.events[e], token)][i := Checked(t, t.events[e], token, unavailable)]
        == w.workers[i := Checked(t, t.events[e], token, unavailable)];
  }

  lemma CalledWorld(w: World, i: WorkerId, failed: bool, landed: bool)
    requires Enabled(w, CallEngine(i, failed, landed))
    ensures var p := w.workers[i];
            Next(w, CallEngine(i, failed, landed)) ==
            w.(engine := if !failed || landed then Project(w.engine, p.row, p.event.action) else w.engine,
               workers := w.workers[i := Projected(p.event, p.token, p.row, failed)])
  {
  }

  lemma FinishedWorld(w: World, i: WorkerId)
    requires Enabled(w, FinishEvent(i))
    ensures var p := w.workers[i];
            Next(w, FinishEvent(i)) == w.(tables := Finish(w.tables, p.event, p.token, p.row, p.failed, w.now), workers := w.workers - {i})
  {
  }

  lemma GivenUpWorld(w: World, i: WorkerId)
    requires i in w.workers
    ensures var p := w.workers[i];
            && (p.Failing? ==> Next(w, FailClaim(i)) == w.(tables := GatewayModel.FailEvent(w.tables, p.event, p.token, w.now), workers := w.workers - {i}))
            && (p.Discarding? ==> Next(w, DiscardEvent(i)) == w.(tables := Discard(w.tables, p.event, p.token), workers := w.workers - {i}))
  {
  }

  /** The world after Engine call and finish of a checked event. */
  lemma CallAndFinish(w: World, i: WorkerId, failed: bool, landed: bool) returns (w': World)
    requires i in w.workers && w.workers[i].Ready?
    ensures var p := w.workers[i]; var reaches := Reaches(p.row, p.event.action);
            && Enabled(w, CallEngine(i, failed || !reaches, landed && reaches))
            && var w3 := Next(w, CallEngine(i, failed || !reaches, landed && reaches));
               Enabled(w3, FinishEvent(i)) && w' == Next(w3, FinishEvent(i))
    ensures var p := w.workers[i]; var reaches := Reaches(p.row, p.event.action);
            w' == w.(tables := Finish(w.tables, p.event, p.token, p.row, failed || !reaches, w.now),
                     engine := if reaches && (!failed || landed) then Project(w.engine, p.row, p.event.action) else w.engine,
                     workers := w.workers - {i})
  {
    var p := w.workers[i];
    var reaches := Reaches(p.row, p.event.action);
    CalledWorld(w, i, failed || !reaches, landed && reaches);
    var w3 := Next(w, CallEngine(i, failed || !reaches, landed && reaches));
    FinishedWorld(w3, i);
    w' := Next(w3, FinishEvent(i));
    assert w3.workers - {i} == w.workers - {i};
  }

  /** The uninterrupted pass is those steps: whatever it does, the step relation does too. */
  lemma PassIsSteps(w: World, i: WorkerId, token: Token, e: Id, unavailable: bool, failed: bool, landed: bool) returns (w': World)
    requires Enabled(w, ClaimEvent(i, token, e))
    ensures Passes(w, w', i, token, e, unavailable, failed, landed)
    ensures (w'.tables, w'.engine) == Reconciled(w.tables, w.engine, e, token, unavailable, failed, landed, w.now)
    ensures w'.workers == w.workers && w'.now == w.now && w'.loaded == w.loaded
  {
    CheckedWorld(w, i, token, e, unavailable);
    var w2 := ClaimedAndChecked(w, i, token, e, unavailable);
    assert w2.workers - {i} == w.workers;
    if w2.workers[i].Ready? {
      w' := CallAndFinish(w2, i, failed, landed);
    } else {
      GivenUpWorld(w2, i);
      w' := if w2.workers[i].Failing? then Next(w2, FailClaim(i)) else Next(w2, DiscardEvent(i));
    }
  }
}
