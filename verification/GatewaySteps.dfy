/**
  The gateway as a step relation: request handlers, background loops and any
  number of outbox workers interleave, one database transaction or one Engine
  call at a time. Every choice the environment makes is an argument of the
  action, so a step is a function of the world and the action.
*/
module GatewaySteps {
  import opened Prelude
  import opened GatewayModel

  type WorkerId = nat

  /** Identity of an object in the Engine. */
  datatype EngineKey = WorkspaceObject(name: string) | ApplicationObject(namespace: string, name: string)

  /** An Engine object: the adapted specification and the business labels. */
  datatype EngineObject = EngineObject(spec: DesiredState, labels: Labels)

  datatype Labels = Labels(id: Id, parent: Parent, project: string, moduleId: string)

  /** Where a worker stands between its transactions; a worker not listed is idle. */
  datatype Phase =
    | Claimed(event: Event, token: Token)
    | Discarding(event: Event, token: Token)
    | Failing(event: Event, token: Token)
    | Ready(event: Event, token: Token, row: Record)
    | Projected(event: Event, token: Token, row: Record, failed: bool)

  /** `loaded` holds every row version some handler or loop has read and may still act on. */
  datatype World = World(
    tables: Tables,
    engine: map<EngineKey, EngineObject>,
    projects: map<string, string>,
    workers: map<WorkerId, Phase>,
    tokens: set<Token>,
    loaded: set<Record>,
    now: Time)

  datatype Action =
    | CreateRequest(p: Principal, kind: Kind, input: ResourceInput, key: string, ids: Ids)
    | UpdateRequest(p: Principal, copy: Record, kind: Kind, input: ResourceInput, children: nat, key: string, ids: Ids)
    | DeleteRequest(p: Principal, id: Id, kind: Kind, key: string, ids: Ids)
    | AdoptClusterRequest(p: Principal, id: Id, key: string, ids: Ids)
    | AdoptExistingRequest(p: Principal, id: Id, kind: Kind, input: ResourceInput, key: string, ids: Ids)
    | Load(id: Id)
    | RepairRow(copy: Record, key: string, ids: Ids)
    | MissingRow(copy: Record)
    | Discover(row: Record)
    | ClaimEvent(worker: WorkerId, token: Token, event: Id)
    | CheckRow(worker: WorkerId, unavailable: bool)
    | CallEngine(worker: WorkerId, failed: bool, landed: bool)
    | FinishEvent(worker: WorkerId)
    | DiscardEvent(worker: WorkerId)
    | FailClaim(worker: WorkerId)
    | Crash(worker: WorkerId)
    | Tick(elapsed: nat)

  function ObjectKey(r: Record): EngineKey {
    if r.kind == Workspace then WorkspaceObject(r.name) else ApplicationObject(r.namespace, r.name)
  }

  function BusinessLabels(r: Record): Labels {
    Labels(r.id, if r.kind == Application then r.parent else NoParent, r.project, r.moduleId)
  }

  /** The desired state can be turned into an Engine specification. */
  predicate Adaptable(r: Record) {
    match r.kind
    case Workspace => r.desired.workspace.Some?
    case Application => r.desired.application.Some? && r.desired.application.value.adaptable
    case Cluster => true
  }

  /** The call gets as far as the Engine: only what is to be applied must be adapted first. */
  predicate Reaches(r: Record, action: EventAction) {
    action in {Apply, AdoptExisting} ==> Adaptable(r)
  }

  function Projection(r: Record): EngineObject {
    EngineObject(r.desired, BusinessLabels(r))
  }

  /** The Engine after a projection call that took effect. */
  function Project(engine: map<EngineKey, EngineObject>, r: Record, action: EventAction): map<EngineKey, EngineObject> {
    if action == Adopt || r.kind == Cluster then engine
    else if action == Delete then engine - {ObjectKey(r)}
    else engine[ObjectKey(r) := Projection(r)]
  }

  /** The Engine no longer shows what the row asks for. */
  predicate Drifted(engine: map<EngineKey, EngineObject>, r: Record) {
    ObjectKey(r) !in engine || engine[ObjectKey(r)] != Projection(r)
  }

  // ------------------------------------------ what the Engine is meant to show

  type Objects = map<EngineKey, EngineObject>

  /** The row's object is there, with the desired state and the business labels. */
  predicate Shows(engine: Objects, r: Record) {
    ObjectKey(r) in engine &&
    var shown := engine[ObjectKey(r)];
    && shown.spec == r.desired && shown.labels.id == r.id
    && shown.labels.parent == (if r.kind == Application then r.parent else NoParent)
    && shown.labels.project == r.project && shown.labels.moduleId == r.moduleId
  }

  ghost predicate SameElsewhere(before: Objects, after: Objects, key: EngineKey) {
    forall other :: other != key ==>
      (other in after <==> other in before) && (other in before ==> after[other] == before[other])
  }

  /** Specifications the Engine adapter cannot express. */
  predicate Inexpressible(r: Record) {
    match r.kind
    case Workspace => r.desired.workspace.None?
    case Application => r.desired.application.None? || !r.desired.application.value.adaptable
    case Cluster => false
  }

  /** What a call leaves in the Engine, whether it succeeded, failed, or failed after it had landed. */
  ghost predicate Effect(before: Objects, after: Objects, row: Record, action: EventAction, took: bool) {
    var key := if row.kind == Workspace then WorkspaceObject(row.name) else ApplicationObject(row.namespace, row.name);
    && SameElsewhere(before, after, key)
    && (took && action == Delete && row.kind != Cluster ==> key !in after)
    && (took && (action == Apply || action == AdoptExisting) && row.kind != Cluster ==> key == ObjectKey(row) && Shows(after, row))
    && (!took || action == Adopt || row.kind == Cluster ==> after == before)
  }

  /** What the row check asks of the row, action by action. */
  predicate Authorised(r: Record, e: Event) {
    && r.id == e.resourceId && !r.archived
    && (e.action == Apply || e.action == AdoptExisting ==>
          r.syncState != Deleting && r.state != Archived && r.source == Api && r.desiredRevision == e.desiredRevision)
    && (e.action == Delete ==> r.syncState == Deleting && r.desiredRevision == e.desiredRevision)
  }

  /** The rows the repair loop considers. */
  predicate Repairable(r: Record) {
    !r.archived && r.kind != Cluster && r.source == Api && r.syncState != Deleting
  }

  /** Decision of a request, repair included; `None` for every other action. */
  function Decide(w: World, a: Action): Option<Verdict> {
    match a
    case CreateRequest(p, kind, input, key, ids) => Some(DecideCreate(w.tables, w.projects, p, kind, input, key, ids, w.now))
    case UpdateRequest(p, copy, kind, input, children, key, ids) => Some(DecideUpdate(w.tables, p, copy, kind, input, children, key, ids, w.now))
    case DeleteRequest(p, id, kind, key, ids) => Some(DecideDelete(w.tables, p, id, kind, key, ids, w.now))
    case AdoptClusterRequest(p, id, key, ids) => Some(DecideAdoptCluster(w.tables, p, id, key, ids, w.now))
    case AdoptExistingRequest(p, id, kind, input, key, ids) => Some(DecideAdoptExisting(w.tables, w.projects, p, id, kind, input, key, ids, w.now))
    case RepairRow(copy, key, ids) => DecideRepair(w.tables, copy, key, ids, w.now)
    case _ => None
  }

  predicate Enabled(w: World, a: Action) {
    match a
    case CreateRequest(_, _, _, _, ids) => FreshIds(w.tables, ids)
    case UpdateRequest(_, copy, _, _, _, _, ids) => FreshIds(w.tables, ids) && copy in w.loaded
    case DeleteRequest(_, _, _, _, ids) => FreshIds(w.tables, ids)
    case AdoptClusterRequest(_, _, _, ids) => FreshIds(w.tables, ids)
    case AdoptExistingRequest(_, _, _, _, _, ids) => FreshIds(w.tables, ids)
    case Load(id) => id in w.tables.records
    case RepairRow(copy, key, ids) => FreshIds(w.tables, ids) && copy in w.loaded && Repairable(copy) && (0, key) !in w.tables.opIndex
    case MissingRow(copy) => copy in w.loaded && copy.kind != Cluster && !copy.archived
    case Discover(row) => Importable(w.tables, row)
    case ClaimEvent(worker, token, event) => worker !in w.workers && token !in w.tokens && NextClaim(w.tables, event, w.now)
    case CheckRow(worker, _) => worker in w.workers && w.workers[worker].Claimed?
    case CallEngine(worker, failed, landed) => worker in w.workers && w.workers[worker].Ready?
                                               && (!Reaches(w.workers[worker].row, w.workers[worker].event.action) ==> failed && !landed)
    case FinishEvent(worker) => worker in w.workers && w.workers[worker].Projected?
    case DiscardEvent(worker) => worker in w.workers && w.workers[worker].Discarding?
    case FailClaim(worker) => worker in w.workers && w.workers[worker].Failing?
    case Crash(worker) => worker in w.workers
    case Tick(_) => true
  }

  /** The phase after the row check of a claimed event. */
  function Checked(t: Tables, e: Event, token: Token, unavailable: bool): Phase {
    if unavailable || e.resourceId !in t.records then Failing(e, token)
    else if MayProject(t.records[e.resourceId], e) then Ready(e, token, t.records[e.resourceId])
    else Discarding(e, token)
  }

  predicate IsRequest(a: Action) {
    a.CreateRequest? || a.UpdateRequest? || a.DeleteRequest? || a.AdoptClusterRequest? || a.AdoptExistingRequest? || a.RepairRow?
  }

  /** The tables after a step that is no request: worker transactions and background row writes. */
  function BackgroundTables(w: World, a: Action): Tables
    requires Enabled(w, a) && !IsRequest(a)
  {
    match a
    case MissingRow(copy) => MarkMissing(w.tables, copy, w.now)
    case Discover(row) => PutRow(w.tables, row)
    case ClaimEvent(_, token, event) => ClaimRow(w.tables, event, token, w.now)
    case FinishEvent(worker) =>
      var phase := w.workers[worker];
      Finish(w.tables, phase.event, phase.token, phase.row, phase.failed, w.now)
    case DiscardEvent(worker) => Discard(w.tables, w.workers[worker].event, w.workers[worker].token)
    case FailClaim(worker) => FailEvent(w.tables, w.workers[worker].event, w.workers[worker].token, w.now)
    case _ => w.tables
  }

  function NextTables(w: World, a: Action): Tables
    requires Enabled(w, a)
  {
    if IsRequest(a)
    then if Decide(w, a).Some? then Write(w.tables, Decide(w, a).value) else w.tables
    else BackgroundTables(w, a)
  }

  function NextWorkers(w: World, a: Action): map<WorkerId, Phase>
    requires Enabled(w, a)
  {
    match a
    case ClaimEvent(worker, token, event) => w.workers[worker := Claimed(ClaimRow(w.tables, event, token, w.now).events[event], token)]
    case CheckRow(worker, unavailable) =>
      w.workers[worker := Checked(w.tables, w.workers[worker].event, w.workers[worker].token, unavailable)]
    case CallEngine(worker, failed, _) =>
      w.workers[worker := Projected(w.workers[worker].event, w.workers[worker].token, w.workers[worker].row, failed)]
    case FinishEvent(worker) => w.workers - {worker}
    case DiscardEvent(worker) => w.workers - {worker}
    case FailClaim(worker) => w.workers - {worker}
    case Crash(worker) => w.workers - {worker}
    case _ => w.workers
  }

  /** A failed Engine call may still have landed. */
  function NextEngine(w: World, a: Action): map<EngineKey, EngineObject>
    requires Enabled(w, a)
  {
    if a.CallEngine? && (!a.failed || a.landed)
    then Project(w.engine, w.workers[a.worker].row, w.workers[a.worker].event.action)
    else w.engine
  }

  function Next(w: World, a: Action): World
    requires Enabled(w, a)
  {
    World(NextTables(w, a), NextEngine(w, a), w.projects, NextWorkers(w, a),
          if a.ClaimEvent? then w.tokens + {a.token} else w.tokens,
          if a.Load? then w.loaded + {w.tables.records[a.id]} else w.loaded,
          if a.Tick? then w.now + a.elapsed else w.now)
  }

  ghost predicate Init(w: World) {
    w.tables == Tables(map[], map[], map[], map[], map[]) && w.workers == map[] && w.tokens == {} && w.loaded == {}
  }

  ghost predicate StepAt(ws: seq<World>, acts: seq<Action>, i: nat)
    requires i < |acts| && |ws| == |acts| + 1
  {
    Enabled(ws[i], acts[i]) && ws[i + 1] == Next(ws[i], acts[i])
  }

  /** `ws` is the sequence of worlds that the actions `acts` pass through. */
  ghost predicate IsRun(ws: seq<World>, acts: seq<Action>) {
    && |ws| == |acts| + 1
    && forall i: nat :: i < |acts| ==> StepAt(ws, acts, i)
  }

  // ------------------------------------------------- shape of a request's commit

  /** A commit writes a new pending operation, its new untouched event, and one row. */
  ghost predicate WellFormedCommit(t: Tables, v: Verdict) {
    v.Commit? ==>
      && v.op.id !in t.operations && v.op.id !in t.eventIndex && v.event.id !in t.events
      && (v.op.actor, v.op.key) !in t.opIndex
      && v.op.state == OpPending
      && v.event.opId == v.op.id && v.event.resourceId == v.row.id && v.op.resourceId == v.row.id
      && v.event.action == v.op.action
      && v.event.attempts == 0 && !v.event.processed && v.event.claim.None?
  }

  ghost predicate IndexSound(t: Tables) {
    forall k :: k in t.opIndex ==> t.opIndex[k] in t.operations
  }

  ghost predicate RowsKeyed(t: Tables) {
    forall id :: id in t.records ==> t.records[id].id == id
  }

  lemma UpdateIsWellFormed(w: World, a: Action)
    requires Enabled(w, a) && a.UpdateRequest? && IndexSound(w.tables) && RowsKeyed(w.tables)
    ensures WellFormedCommit(w.tables, Decide(w, a).value)
  {
  }

  lemma RequestsAreWellFormed(w: World, a: Action)
    requires Enabled(w, a) && Decide(w, a).Some? && IndexSound(w.tables) && RowsKeyed(w.tables)
    ensures WellFormedCommit(w.tables, Decide(w, a).value)
  {
    if a.UpdateRequest? {
      UpdateIsWellFormed(w, a);
    }
  }

  /** A caller without administrative rights adopts nothing and writes only rows of its own module, as it read them. */
  lemma CommitsStayInScope(w: World, a: Action)
    requires Enabled(w, a) && RowsKeyed(w.tables) && IsRequest(a) && !a.RepairRow? && !a.p.admin && Decide(w, a).value.Commit?
    ensures !a.AdoptClusterRequest? && !a.AdoptExistingRequest?
    ensures a.CreateRequest? || a.DeleteRequest? ==> Decide(w, a).value.row.moduleId == a.p.moduleId
    ensures a.UpdateRequest? ==> a.copy.moduleId == a.p.moduleId
    ensures Decide(w, a).value.op.moduleId == Decide(w, a).value.row.moduleId
  {
    if a.UpdateRequest? {
      UpdateStaysInScope(w, a);
    }
  }

  lemma UpdateStaysInScope(w: World, a: Action)
    requires Enabled(w, a) && a.UpdateRequest? && !a.p.admin && Decide(w, a).value.Commit?
    ensures a.copy.moduleId == a.p.moduleId && Decide(w, a).value.op.moduleId == Decide(w, a).value.row.moduleId
  {
  }
}
