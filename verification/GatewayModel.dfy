/**
  Rows of the resource gateway's database and the decision every transaction
  takes on them.

  Public IDs are numbers: the program draws them at random, so a new one is a
  parameter that must be unused. SHA-256 fingerprints and hashes are the tuples
  they digest. The two unique indexes of the operation and outbox tables are
  part of the tables, as maps.
*/
module GatewayModel {
  import opened Prelude

  type Id = nat
  type Time = int
  type Token = nat

  datatype Kind = Workspace | Application | Cluster
  datatype SyncState = Pending | Synced | Retrying | Failed | Deleting | Stale | Unsupported
  datatype Source = Api | Engine | Agent
  datatype Lifecycle = Plain | Unassigned | Discovered | Adopting | Adopted | Archived
  datatype EventAction = Apply | Delete | Adopt | AdoptExisting
  datatype OpState = OpPending | OpRetrying | OpSucceeded | OpFailed
  datatype Verb = CreateVerb | UpdateVerb | DeleteVerb | AdoptClusterVerb | AdoptExistingVerb

  const MAX_OUTBOX_ATTEMPTS: nat := 3
  const LEASE: Time := 30
  const REPAIR_BACKOFF: Time := 30

  /** One environment entry: an inline value is forbidden, a secret reference required. */
  datatype Environment = Environment(inlineValue: string, secretName: string, secretKey: string)

  datatype WorkspaceDesired = WorkspaceDesired(namespace: string, spec: string)

  /** `adaptable` is false when the Engine adapter cannot express the specification. */
  datatype ApplicationDesired = ApplicationDesired(spec: string, envs: seq<Environment>, adaptable: bool)

  datatype DesiredState = DesiredState(workspace: Option<WorkspaceDesired>, application: Option<ApplicationDesired>)

  datatype Parent = NoParent | OfProject(project: string) | OfRecord(id: Id)

  /** The unique Engine-scoped identity of an unarchived row. */
  datatype ActiveKey = ApplicationKey(namespace: string, name: string) | WorkspaceKey(namespace: string) | ClusterKey(name: string)

  datatype Record = Record(
    id: Id, kind: Kind, name: string, namespace: string,
    parent: Parent, project: string, moduleId: string,
    activeKey: Option<ActiveKey>,
    desired: DesiredState, desiredRevision: nat, appliedRevision: nat,
    syncState: SyncState, source: Source, state: Lifecycle,
    unsupported: bool, archived: bool, updatedAt: Time)

  datatype ResourceInput = ResourceInput(name: string, projectId: string, workspaceId: Option<Id>, desired: DesiredState)

  datatype Fingerprint =
    | Request(actor: nat, kind: Kind, verb: Verb, target: Option<Id>, payload: Option<ResourceInput>)
    | Repair(desired: DesiredState)

  datatype Operation = Operation(
    id: Id, key: string, actor: nat, moduleId: string,
    fingerprint: Fingerprint, resourceId: Id, action: EventAction, state: OpState)

  datatype Claim = Claim(token: Token, until: Time)

  datatype Event = Event(
    id: Id, opId: Id, resourceId: Id, action: EventAction, desiredRevision: nat,
    attempts: nat, availableAt: Time, processed: bool, claim: Option<Claim>, createdAt: Time)

  datatype Principal = Principal(userId: nat, moduleId: string, admin: bool)

  /** `opIndex` is the unique index on (actor, key); `eventIndex` the one on the event's operation. */
  datatype Tables = Tables(
    records: map<Id, Record>,
    operations: map<Id, Operation>,
    opIndex: map<(nat, string), Id>,
    events: map<Id, Event>,
    eventIndex: map<Id, Id>)

  datatype Error =
    | NameRequired | InvalidDesired | IdempotencyConflict | ProjectRequired | ProjectNotFound
    | WorkspaceRequired | WorkspaceNotFound | UnsupportedKind | UniqueConflict | NotFound
    | ParentImmutable | NameImmutable | NamespaceInUse | ConcurrentModification | ChildrenExist
    | Forbidden | NotAwaitingAdoption | CapabilityUnsupported | ParentUnavailable
    | NamespaceMismatch | DesiredMissing

  /** IDs drawn for one request. */
  datatype Ids = Ids(record: Id, op: Id, event: Id)

  /** What one transaction decides: hand back a stored operation, refuse, or write three rows. */
  datatype Verdict =
    | Replay(stored: Operation)
    | Reject(error: Error)
    | Commit(row: Record, op: Operation, event: Event)

  // ---------------------------------------------------------------- helpers

  predicate HasDesired(d: DesiredState) {
    d.workspace.Some? || d.application.Some?
  }

  predicate ValidEnvironment(envs: seq<Environment>) {
    forall i :: 0 <= i < |envs| ==> envs[i].inlineValue == "" && envs[i].secretName != "" && envs[i].secretKey != ""
  }

  predicate ValidDesired(kind: Kind, d: DesiredState, optional: bool) {
    if optional && !HasDesired(d) then true else
      match kind
      case Workspace => d.workspace.Some? && d.application.None?
      case Application => d.application.Some? && d.workspace.None? && ValidEnvironment(d.application.value.envs)
      case Cluster => false
  }

  function ActiveIdentity(kind: Kind, name: string, namespace: string): ActiveKey {
    match kind
    case Application => ApplicationKey(namespace, name)
    case Workspace => WorkspaceKey(namespace)
    case Cluster => ClusterKey(name)
  }

  function EffectiveNamespace(name: string, d: DesiredState): Result<string, Error> {
    if d.workspace.None? then Failure(DesiredMissing)
    else if d.workspace.value.namespace != "" then Success(d.workspace.value.namespace)
    else Success(name)
  }

  predicate InScope(p: Principal, r: Record) {
    p.admin || r.moduleId == p.moduleId
  }

  predicate FreshIds(t: Tables, ids: Ids) {
    && ids.record !in t.records
    && ids.op !in t.operations && ids.op !in t.eventIndex
    && ids.event !in t.events
  }

  /** Another row already carries this active key. */
  predicate KeyTaken(t: Tables, key: Option<ActiveKey>, self: Id) {
    key.Some? && exists other :: other in t.records && other != self && t.records[other].activeKey == key
  }

  predicate HasChildren(t: Tables, parent: Id) {
    exists c :: c in t.records && !t.records[c].archived && t.records[c].parent == OfRecord(parent)
  }

  /** The stored answer to a request already seen, if any. */
  function FindIdempotent(t: Tables, actor: nat, key: string, fp: Fingerprint): Option<Verdict> {
    if (actor, key) in t.opIndex && t.opIndex[(actor, key)] in t.operations then
      var op := t.operations[t.opIndex[(actor, key)]];
      if op.fingerprint == fp then Some(Replay(op)) else Some(Reject(IdempotencyConflict))
    else None
  }

  function NewOperation(id: Id, key: string, actor: nat, moduleId: string, fp: Fingerprint, resource: Id, action: EventAction): Operation {
    Operation(id, key, actor, moduleId, fp, resource, action, OpPending)
  }

  function NewEvent(id: Id, opId: Id, resource: Id, action: EventAction, revision: nat, now: Time): Event {
    Event(id, opId, resource, action, revision, 0, now, false, None, now)
  }

  function CommitWith(row: Record, key: string, actor: nat, fp: Fingerprint, action: EventAction, revision: nat, ids: Ids, now: Time): Verdict {
    Commit(row,
           NewOperation(ids.op, key, actor, row.moduleId, fp, row.id, action),
           NewEvent(ids.event, ids.op, row.id, action, revision, now))
  }

  // ------------------------------------------------------ request decisions

  /** The row a create request inserts. */
  function NewRecord(t: Tables, projects: map<string, string>, p: Principal, kind: Kind, input: ResourceInput, id: Id, now: Time): Result<Record, Error> {
    match kind
    case Workspace =>
      if input.projectId == "" then Failure(ProjectRequired)
      else if input.projectId !in projects || !(p.admin || projects[input.projectId] == p.moduleId) then Failure(ProjectNotFound)
      else
        var namespace := if input.desired.workspace.Some? && input.desired.workspace.value.namespace != ""
                         then input.desired.workspace.value.namespace else input.name;
        Success(Record(id, Workspace, input.name, namespace, OfProject(input.projectId), input.projectId, projects[input.projectId],
                       Some(ActiveIdentity(Workspace, input.name, namespace)),
                       input.desired, 1, 0, Pending, Api, Plain, false, false, now))
    case Application =>
      if input.workspaceId.None? then Failure(WorkspaceRequired)
      else
        var w := input.workspaceId.value;
        if w !in t.records then Failure(WorkspaceNotFound)
        else
          var parent := t.records[w];
          if parent.kind != Workspace || parent.archived || parent.syncState == Deleting || parent.state == Archived || !InScope(p, parent)
          then Failure(WorkspaceNotFound)
          else
            (match EffectiveNamespace(parent.name, parent.desired)
             case Failure(e) => Failure(e)
             case Success(namespace) =>
               Success(Record(id, Application, input.name, namespace, OfRecord(w), parent.project, parent.moduleId,
                              Some(ActiveIdentity(Application, input.name, namespace)),
                              input.desired, 1, 0, Pending, Api, Plain, false, false, now)))
    case Cluster => Failure(UnsupportedKind)
  }

  function DecideCreate(t: Tables, projects: map<string, string>, p: Principal, kind: Kind, input: ResourceInput, key: string, ids: Ids, now: Time): Verdict {
    if input.name == "" then Reject(NameRequired)
    else if !ValidDesired(kind, input.desired, false) then Reject(InvalidDesired)
    else
      var fp := Request(p.userId, kind, CreateVerb, None, Some(input));
      match FindIdempotent(t, p.userId, key, fp)
      case Some(v) => v
      case None =>
        match NewRecord(t, projects, p, kind, input, ids.record, now)
        case Failure(e) => Reject(e)
        case Success(r) =>
          if KeyTaken(t, r.activeKey, r.id) then Reject(UniqueConflict)
          else CommitWith(r, key, p.userId, fp, Apply, r.desiredRevision, ids, now)
  }

  /** The checks an update makes on its own earlier read of the row, before its transaction. */
  function PrecheckUpdate(p: Principal, copy: Record, kind: Kind, input: ResourceInput, children: nat): Option<Error> {
    if copy.archived || copy.kind != kind || copy.syncState == Deleting || copy.state == Archived || !InScope(p, copy) then Some(NotFound)
    else if kind == Workspace && input.projectId != "" && copy.parent != OfProject(input.projectId) then Some(ParentImmutable)
    else if kind != Workspace && input.workspaceId.Some? && copy.parent != OfRecord(input.workspaceId.value) then Some(ParentImmutable)
    else if !ValidDesired(kind, input.desired, true) then Some(InvalidDesired)
    else if input.name != "" && input.name != copy.name then Some(NameImmutable)
    else if kind == Workspace && HasDesired(input.desired) then
      match EffectiveNamespace(copy.name, copy.desired)
      case Failure(e) => Some(e)
      case Success(current) =>
        match EffectiveNamespace(copy.name, input.desired)
        case Failure(e) => Some(e)
        case Success(wanted) => if current != wanted && children > 0 then Some(NamespaceInUse) else None
    else None
  }

  /**
    An update: `copy` is the row read before the transaction, `children` the count
    taken then. Only the listed columns of the current row change.
  */
  function DecideUpdate(t: Tables, p: Principal, copy: Record, kind: Kind, input: ResourceInput, children: nat, key: string, ids: Ids, now: Time): Verdict {
    match PrecheckUpdate(p, copy, kind, input, children)
    case Some(e) => Reject(e)
    case None =>
      var fp := Request(p.userId, kind, UpdateVerb, Some(copy.id), Some(input));
      match FindIdempotent(t, p.userId, key, fp)
      case Some(v) => v
      case None =>
        if copy.id !in t.records then Reject(ConcurrentModification)
        else
          var current := t.records[copy.id];
          if current.archived || current.desiredRevision != copy.desiredRevision || current.syncState == Deleting || current.state == Archived
          then Reject(ConcurrentModification)
          else if !HasDesired(input.desired) then
            CommitWith(current.(desired := copy.desired, syncState := Pending, updatedAt := now), key, p.userId, fp, Apply, copy.desiredRevision, ids, now)
          else
            var row := current.(desired := input.desired, desiredRevision := copy.desiredRevision + 1, syncState := Pending, updatedAt := now);
            if kind != Workspace then CommitWith(row, key, p.userId, fp, Apply, row.desiredRevision, ids, now)
            else match EffectiveNamespace(copy.name, input.desired)
                 case Failure(e) => Reject(e)
                 case Success(namespace) =>
                   var moved := row.(namespace := namespace, activeKey := Some(ActiveIdentity(kind, copy.name, namespace)));
                   if KeyTaken(t, moved.activeKey, moved.id) then Reject(UniqueConflict)
                   else CommitWith(moved, key, p.userId, fp, Apply, moved.desiredRevision, ids, now)
  }

  function DecideDelete(t: Tables, p: Principal, id: Id, kind: Kind, key: string, ids: Ids, now: Time): Verdict {
    var fp := Request(p.userId, kind, DeleteVerb, Some(id), None);
    match FindIdempotent(t, p.userId, key, fp)
    case Some(v) => v
    case None =>
      if id !in t.records || t.records[id].kind != kind || t.records[id].archived || !InScope(p, t.records[id]) then Reject(NotFound)
      else if HasChildren(t, id) then Reject(ChildrenExist)
      else if t.records[id].syncState == Deleting then Reject(ConcurrentModification)
      else
        var row := t.records[id].(syncState := Deleting, updatedAt := now);
        CommitWith(row, key, p.userId, fp, Delete, row.desiredRevision, ids, now)
  }

  function DecideAdoptCluster(t: Tables, p: Principal, id: Id, key: string, ids: Ids, now: Time): Verdict {
    if !p.admin then Reject(Forbidden)
    else
      var fp := Request(p.userId, Cluster, AdoptClusterVerb, Some(id), None);
      match FindIdempotent(t, p.userId, key, fp)
      case Some(v) => v
      case None =>
        if id !in t.records || t.records[id].kind != Cluster then Reject(NotFound)
        else if t.records[id].state != Discovered then Reject(NotAwaitingAdoption)
        else if t.records[id].archived then Reject(ConcurrentModification)
        else
          var row := t.records[id].(state := Adopting, syncState := Pending, updatedAt := now);
          Commit(row,
                 NewOperation(ids.op, key, p.userId, "", fp, id, Adopt),
                 NewEvent(ids.event, ids.op, id, Adopt, row.desiredRevision, now))
  }

  /** Where an adopted row is filed: a project for a workspace, an active workspace for an application. */
  function AdoptedRow(t: Tables, projects: map<string, string>, r: Record, input: ResourceInput, now: Time): Result<Record, Error> {
    var base := r.(syncState := Pending, state := Adopting, source := Api, updatedAt := now);
    if r.kind == Workspace then
      if input.projectId == "" then Failure(ProjectRequired)
      else if input.projectId !in projects then Failure(ProjectNotFound)
      else Success(base.(parent := OfProject(input.projectId), project := input.projectId, moduleId := projects[input.projectId]))
    else if input.workspaceId.None? then Failure(WorkspaceRequired)
    else
      var w := input.workspaceId.value;
      if w !in t.records || t.records[w].archived || t.records[w].kind != Workspace || t.records[w].syncState == Deleting
         || t.records[w].state == Unassigned || t.records[w].state == Archived then Failure(ParentUnavailable)
      else match EffectiveNamespace(t.records[w].name, t.records[w].desired)
           case Failure(e) => Failure(e)
           case Success(namespace) =>
             if namespace != r.namespace then Failure(NamespaceMismatch)
             else Success(base.(parent := OfRecord(w), project := t.records[w].project, moduleId := t.records[w].moduleId))
  }

  function DecideAdoptExisting(t: Tables, projects: map<string, string>, p: Principal, id: Id, kind: Kind, input: ResourceInput, key: string, ids: Ids, now: Time): Verdict {
    if !p.admin then Reject(Forbidden)
    else if kind == Cluster then Reject(UnsupportedKind)
    else
      var fp := Request(p.userId, kind, AdoptExistingVerb, Some(id), Some(input));
      match FindIdempotent(t, p.userId, key, fp)
      case Some(v) => v
      case None =>
        if id !in t.records || t.records[id].archived || t.records[id].kind != kind
           || t.records[id].state != Unassigned || t.records[id].source != Engine then Reject(NotFound)
        else if t.records[id].unsupported then Reject(CapabilityUnsupported)
        else match AdoptedRow(t, projects, t.records[id], input, now)
             case Failure(e) => Reject(e)
             case Success(row) =>
               if t.records[id].parent != NoParent then Reject(ConcurrentModification)
               else CommitWith(row, key, p.userId, fp, AdoptExisting, row.desiredRevision, ids, now)
  }

  /** A repair enqueued for a row read earlier; `None` when an event is still outstanding. */
  function DecideRepair(t: Tables, copy: Record, key: string, ids: Ids, now: Time): Option<Verdict> {
    if copy.id !in t.records || Outstanding(t, copy.id) then None
    else Some(Commit(t.records[copy.id],
                     NewOperation(ids.op, key, 0, copy.moduleId, Repair(copy.desired), copy.id, Apply),
                     NewEvent(ids.event, ids.op, copy.id, Apply, copy.desiredRevision, now)))
  }

  predicate Outstanding(t: Tables, resource: Id) {
    exists e :: e in t.events && t.events[e].resourceId == resource && !t.events[e].processed
  }

  // ------------------------------------------------------------ table writes

  function PutRow(t: Tables, r: Record): Tables {
    t.(records := t.records[r.id := r])
  }

  /** Insert an operation and its event. */
  function Enqueue(t: Tables, op: Operation, event: Event): Tables {
    t.(operations := t.operations[op.id := op],
       opIndex := t.opIndex[(op.actor, op.key) := op.id],
       events := t.events[event.id := event],
       eventIndex := t.eventIndex[op.id := event.id])
  }

  function Write(t: Tables, v: Verdict): Tables {
    if v.Commit? then Enqueue(PutRow(t, v.row), v.op, v.event) else t
  }

  function Reply(v: Verdict): Result<Operation, Error> {
    match v
    case Replay(op) => Success(op)
    case Reject(e) => Failure(e)
    case Commit(_, op, _) => Success(op)
  }

  // --------------------------------------------------------- the outbox worker

  predicate Claimable(e: Event, now: Time) {
    !e.processed && e.availableAt <= now && (e.claim.None? || e.claim.value.until < now)
  }

  /** The oldest claimable event, or any one of them when several are equally old. */
  predicate NextClaim(t: Tables, id: Id, now: Time) {
    && id in t.events && Claimable(t.events[id], now)
    && forall other :: other in t.events && Claimable(t.events[other], now) ==> t.events[id].createdAt <= t.events[other].createdAt
  }

  function ClaimRow(t: Tables, id: Id, token: Token, now: Time): Tables
    requires id in t.events
  {
    t.(events := t.events[id := t.events[id].(claim := Some(Claim(token, now + LEASE)))])
  }

  /** The event row is still claimed under this token. */
  predicate Holds(t: Tables, id: Id, token: Token) {
    id in t.events && !t.events[id].processed && t.events[id].claim.Some? && t.events[id].claim.value.token == token
  }

  /** The row guard evaluated after a claim, before the Engine is touched. */
  predicate MayProject(r: Record, e: Event) {
    match e.action
    case Apply => !r.archived && r.syncState != Deleting && r.state != Archived && r.source == Api && r.desiredRevision == e.desiredRevision
    case AdoptExisting => !r.archived && r.syncState != Deleting && r.state != Archived && r.source == Api && r.desiredRevision == e.desiredRevision
    case Delete => !r.archived && r.syncState == Deleting && r.desiredRevision == e.desiredRevision
    case Adopt => !r.archived
  }

  /** Store an event and move its operation unless that is already terminal. */
  function Settle(t: Tables, e: Event, state: OpState): Tables {
    var stored := t.(events := t.events[e.id := e]);
    if e.opId !in t.operations || t.operations[e.opId].state == OpSucceeded || t.operations[e.opId].state == OpFailed then stored
    else stored.(operations := t.operations[e.opId := t.operations[e.opId].(state := state)])
  }

  /** One more failed attempt. */
  function FailedAttempt(e: Event, now: Time): Event {
    if e.attempts + 1 >= MAX_OUTBOX_ATTEMPTS
    then e.(attempts := e.attempts + 1, processed := true, claim := None)
    else e.(attempts := e.attempts + 1, availableAt := now + e.attempts + 1, claim := None)
  }

  function FailedOpState(e: Event): OpState {
    if e.attempts + 1 >= MAX_OUTBOX_ATTEMPTS then OpFailed else OpRetrying
  }

  /** The columns the finishing transaction would like the row to have. */
  function FinishedRow(current: Record, copy: Record, e: Event, failed: bool, attempts: nat, now: Time): Record {
    if failed then
      current.(syncState := if attempts + 1 >= MAX_OUTBOX_ATTEMPTS then Failed else Retrying,
               state := copy.state, archived := copy.archived, activeKey := copy.activeKey, updatedAt := now)
    else match e.action
      case Apply => current.(syncState := Synced, state := copy.state, archived := copy.archived, activeKey := copy.activeKey,
                             appliedRevision := copy.desiredRevision, updatedAt := now)
      case AdoptExisting => current.(syncState := Synced, state := Adopted, archived := copy.archived, activeKey := copy.activeKey,
                                     appliedRevision := copy.desiredRevision, updatedAt := now)
      case Adopt => current.(syncState := Synced, state := Adopted, archived := copy.archived, activeKey := copy.activeKey, updatedAt := now)
      case Delete => current.(syncState := Synced, state := Archived, archived := true, activeKey := None, updatedAt := now)
  }

  /** The guard of the finishing transaction's row update. */
  predicate MayFinishRow(t: Tables, copy: Record, e: Event) {
    && copy.id in t.records
    && t.records[copy.id].desiredRevision == copy.desiredRevision
    && (e.action == Apply || e.action == AdoptExisting ==>
          !t.records[copy.id].archived && t.records[copy.id].syncState != Deleting
          && t.records[copy.id].state != Archived && t.records[copy.id].source == Api)
  }

  /** The active key the finishing transaction writes: the copy's, or none once the row is deleted. */
  function FinishedKey(copy: Record, e: Event, failed: bool): Option<ActiveKey> {
    if !failed && e.action == Delete then None else copy.activeKey
  }

  /** The unique index on active keys refuses the row update, which rolls the whole transaction back. */
  predicate FinishRefused(t: Tables, copy: Record, e: Event, failed: bool) {
    MayFinishRow(t, copy, e) && KeyTaken(t, FinishedKey(copy, e, failed), copy.id)
  }

  /** The finishing transaction writes the row: under the token, past the guard, with a free key. */
  predicate FinishLands(t: Tables, e: Event, token: Token, copy: Record, failed: bool) {
    Holds(t, e.id, token) && MayFinishRow(t, copy, e) && !KeyTaken(t, FinishedKey(copy, e, failed), copy.id)
  }

  /** The finishing transaction, under the claim token, the revision guard and the unique index. */
  function Finish(t: Tables, e: Event, token: Token, copy: Record, failed: bool, now: Time): Tables {
    if !Holds(t, e.id, token) || FinishRefused(t, copy, e, failed) then t
    else
      var claimed := t.events[e.id];
      var settled := if failed then Settle(t, FailedAttempt(claimed, now), FailedOpState(claimed))
                     else Settle(t, claimed.(processed := true, claim := None), OpSucceeded);
      if MayFinishRow(t, copy, e)
      then PutRow(settled, FinishedRow(t.records[copy.id], copy, e, failed, claimed.attempts, now))
      else settled
  }

  /** Terminate an event that may no longer touch the Engine. */
  function Discard(t: Tables, e: Event, token: Token): Tables {
    if !Holds(t, e.id, token) then t
    else Settle(t, t.events[e.id].(processed := true, claim := None), OpFailed)
  }

  /** Count a failure that happened before the Engine was reached. */
  function FailEvent(t: Tables, e: Event, token: Token, now: Time): Tables {
    if !Holds(t, e.id, token) then t
    else Settle(t, FailedAttempt(t.events[e.id], now), FailedOpState(t.events[e.id]))
  }

  // ------------------------------------------------------- background row writes

  /** A row whose Engine object vanished becomes stale, unless its revision moved on. */
  function MarkMissing(t: Tables, copy: Record, now: Time): Tables {
    if copy.syncState == Deleting || copy.id !in t.records
       || t.records[copy.id].desiredRevision != copy.desiredRevision || t.records[copy.id].archived then t
    else PutRow(t, t.records[copy.id].(syncState := Stale, updatedAt := now))
  }

  /** The row imported for an Engine object no row names yet. */
  predicate Importable(t: Tables, r: Record) {
    && r.id !in t.records
    && (forall other :: other in t.records && t.records[other].kind == r.kind && t.records[other].name == r.name ==>
          match r.kind
          case Workspace => false
          case Application => t.records[other].namespace != r.namespace
          case Cluster => t.records[other].archived)
    && !r.archived && r.parent == NoParent && r.activeKey == Some(ActiveIdentity(r.kind, r.name, r.namespace))
    && !KeyTaken(t, r.activeKey, r.id)
    && (match r.kind
        case Cluster => r.source == Agent && r.state == Discovered && r.syncState == Synced && r.appliedRevision == 0 && r.desiredRevision == 1 && !r.unsupported
        case Workspace => r.source == Engine && r.state == Unassigned && r.syncState == Synced && r.appliedRevision == r.desiredRevision == 1
                          && !r.unsupported && r.desired.workspace.Some? && r.desired.application.None?
        case Application => r.source == Engine && r.state == Unassigned && r.syncState == (if r.unsupported then Unsupported else Synced)
                            && r.appliedRevision == r.desiredRevision == 1
                            && (r.unsupported ==> !HasDesired(r.desired)) && (!r.unsupported ==> r.desired.application.Some?))
  }
}
