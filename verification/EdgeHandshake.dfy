/**
  The credential handshake of an edge cluster. The agent publishes credentials as
  annotations of its cluster object, by a merge patch against the copy it read; the
  manager stores them in a Secret, and erases the annotations by an optimistic update.

  The hash of a credential set is the set itself. `history` holds every version of the
  annotations; the last one is current. The manager reads versions that may be old, but
  never older than one it read before; the agent reads the current one.
*/
module EdgeHandshake {
  import opened Prelude

  datatype Creds = Creds(ca: string, token: string, url: string)

  /** What the agent is willing to publish. */
  predicate Complete(c: Creds) {
    c.ca != "" && c.token != "" && c.url != ""
  }

  /** An empty string is an absent annotation. */
  datatype Annotations = Annotations(ca: string, token: string, url: string, hash: Option<Creds>, applied: Option<Creds>)

  datatype Secret = Secret(ca: string, token: string, applied: Creds)

  datatype ManagerPhase =
    | Idle
    | Consuming(hash: Creds)
    | Storing(hash: Creds, ca: string, token: string)
    | Verifying(hash: Creds)
    | Updating(hash: Creds, version: nat)

  datatype AgentPhase = Quiet | Patching(copy: Annotations, creds: Creds)

  datatype World = World(history: seq<Annotations>, secret: Option<Secret>, manager: ManagerPhase, seen: nat, agent: AgentPhase)

  /**
    Another writer touches the object, a read returns version `version`, a step may be given
    up or crash. A conflict on the Secret sends the manager back to its live read.
  */
  datatype Action =
    | Touch
    | AgentRead(creds: Creds)
    | AgentPatch
    | AgentCrash
    | Consume(version: nat)
    | ReadLive(version: nat)
    | StoreSecret
    | SecretConflict
    | ReadLatest(version: nat)
    | UpdateCluster
    | GiveUp

  ghost predicate Sized(w: World) {
    |w.history| > 0 && w.seen < |w.history|
  }

  function Current(w: World): Annotations
    requires |w.history| > 0
  {
    w.history[|w.history| - 1]
  }

  predicate HasCredentials(a: Annotations) {
    a.token != "" || a.ca != ""
  }

  /** A merge patch carries only what differs from the copy it was made against. */
  function Merged(current: Annotations, copy: Annotations, c: Creds): Annotations {
    current.(ca := if copy.ca != c.ca then c.ca else current.ca,
             token := if copy.token != c.token then c.token else current.token,
             url := if copy.url != c.url then c.url else current.url,
             hash := Some(c))
  }

  function Erased(a: Annotations, h: Creds): Annotations {
    a.(ca := "", token := "", url := "", applied := Some(h))
  }

  predicate Readable(w: World, version: nat) {
    w.seen <= version < |w.history|
  }

  predicate Enabled(w: World, a: Action)
    requires |w.history| > 0
  {
    match a
    case Touch => true
    case AgentRead(creds) => w.agent.Quiet? && Complete(creds) && Current(w).hash != Some(creds)
    case AgentPatch => w.agent.Patching?
    case AgentCrash => true
    case Consume(version) => w.manager.Idle? && Readable(w, version) && HasCredentials(w.history[version]) && w.history[version].hash.Some?
    case ReadLive(version) => w.manager.Consuming? && Readable(w, version)
    case StoreSecret => w.manager.Storing?
    case SecretConflict => w.manager.Storing?
    case ReadLatest(version) => w.manager.Verifying? && Readable(w, version)
    case UpdateCluster => w.manager.Updating?
    case GiveUp => true
  }

  /** Where the manager stands after its first read. */
  function AfterLive(live: Annotations, h: Creds): ManagerPhase {
    if live.hash != Some(h) || live.ca == "" || live.token == "" then Idle else Storing(h, live.ca, live.token)
  }

  function Next(w: World, a: Action): World
    requires |w.history| > 0 && Enabled(w, a)
  {
    match a
    case Touch => w.(history := w.history + [Current(w)])
    case AgentRead(creds) => w.(agent := Patching(Current(w), creds))
    case AgentPatch => w.(history := w.history + [Merged(Current(w), w.agent.copy, w.agent.creds)], agent := Quiet)
    case AgentCrash => w.(agent := Quiet)
    case Consume(version) => w.(manager := Consuming(w.history[version].hash.value), seen := version)
    case ReadLive(version) => w.(manager := AfterLive(w.history[version], w.manager.hash), seen := version)
    case StoreSecret => w.(secret := Some(Secret(w.manager.ca, w.manager.token, w.manager.hash)), manager := Verifying(w.manager.hash))
    case SecretConflict => w.(manager := Consuming(w.manager.hash))
    case ReadLatest(version) =>
      w.(manager := if w.history[version].hash == Some(w.manager.hash) then Updating(w.manager.hash, version) else Idle, seen := version)
    case UpdateCluster =>
      if w.manager.version == |w.history| - 1
      then w.(history := w.history + [Erased(Current(w), w.manager.hash)], manager := Idle)
      else w.(manager := Consuming(w.manager.hash))
    case GiveUp => w.(manager := Idle)
  }

  // ------------------------------------------------------------ uninterrupted passes

  /** The cluster object and its Secret, when nobody else writes. */
  class Hub {
    var cluster: Annotations
    var secret: Option<Secret>

    constructor ()
      ensures cluster == Annotations("", "", "", None, None) && secret == None
    {
      cluster, secret := Annotations("", "", "", None, None), None;
    }

    /** The agent's registration or heartbeat: nothing if its hash is in place, otherwise the whole set. */
    method Publish(creds: Creds)
      modifies this
      ensures cluster == if old(cluster).hash == Some(creds) then old(cluster) else Merged(old(cluster), old(cluster), creds)
      ensures old(cluster).hash != Some(creds) ==> Intact(cluster) && cluster.hash == Some(creds)
      ensures old(cluster).hash != Some(creds) ==>
        cluster.ca == creds.ca && cluster.token == creds.token && cluster.url == creds.url && cluster.applied == old(cluster).applied
      ensures old(cluster).hash == Some(creds) ==> cluster == old(cluster)
      ensures secret == old(secret)
    {
      if cluster.hash != Some(creds) {
        cluster := cluster.(ca := creds.ca, token := creds.token, url := creds.url, hash := Some(creds));
      }
    }

    /** The manager's pass over an edge cluster; it fails on a set without hash or with a part missing. */
    method ReconcileEdge() returns (error: bool)
      modifies this
      ensures error <==> HasCredentials(old(cluster)) && (old(cluster).hash.None? || old(cluster).ca == "" || old(cluster).token == "")
      ensures error || !HasCredentials(old(cluster)) ==> cluster == old(cluster) && secret == old(secret)
      ensures !error && HasCredentials(old(cluster)) ==>
        && cluster == Erased(old(cluster), old(cluster).hash.value)
        && secret == Some(Secret(old(cluster).ca, old(cluster).token, old(cluster).hash.value))
      ensures Intact(old(cluster)) && Complete(old(cluster).hash.value) ==> Cleared(cluster) && secret == Stored(cluster.hash.value)
      ensures error <==> (old(cluster).token != "" || old(cluster).ca != "") && (old(cluster).hash.None? || old(cluster).ca == "" || old(cluster).token == "")
      ensures old(cluster).hash.Some? && old(cluster).ca != "" && old(cluster).token != "" ==>
        && cluster.ca == "" && cluster.token == "" && cluster.url == ""
        && cluster.hash == old(cluster).hash && cluster.applied == old(cluster).hash
        && secret == Some(Secret(old(cluster).ca, old(cluster).token, old(cluster).hash.value))
      ensures old(cluster).hash.None? || old(cluster).ca == "" || old(cluster).token == "" ==> cluster == old(cluster) && secret == old(secret)
    {
      error := false;
      if HasCredentials(cluster) {
        if cluster.hash.None? {
          return true;
        }
        var consumed := cluster.hash.value;
        if cluster.ca == "" || cluster.token == "" {
          return true;
        }
        secret := Some(Secret(cluster.ca, cluster.token, consumed));
        if cluster.hash == Some(consumed) {
          cluster := cluster.(ca := "", token := "", url := "", applied := Some(consumed));
        }
      }
    }
  }

  // -------------------------------------------------------------------- invariant

  /** No credential annotation is left. */
  predicate Cleared(a: Annotations) {
    a.ca == "" && a.token == "" && a.url == ""
  }

  /** Every credential annotation is the published set's or absent. */
  predicate Partial(a: Annotations) {
    match a.hash
    case None => Cleared(a)
    case Some(h) => Complete(h) && (a.ca == "" || a.ca == h.ca) && (a.token == "" || a.token == h.token) && (a.url == "" || a.url == h.url)
  }

  /** The published set is all there. */
  predicate Intact(a: Annotations) {
    a.hash.Some? && a.ca == a.hash.value.ca && a.token == a.hash.value.token && a.url == a.hash.value.url
  }

  function Stored(h: Creds): Option<Secret> {
    Some(Secret(h.ca, h.token, h))
  }

  /** All credentials gone though something was published: it is applied, stored, and all the manager can still read. */
  ghost predicate ClearedIsStored(w: World)
    requires Sized(w)
  {
    Cleared(Current(w)) && Current(w).hash.Some? ==>
      && Current(w).applied == Current(w).hash
      && w.secret == Stored(Current(w).hash.value)
      && forall i :: w.seen <= i < |w.history| ==> w.history[i].hash == Current(w).hash
  }

  ghost predicate ManagerOk(w: World)
    requires Sized(w)
  {
    match w.manager
    case Idle => true
    case Consuming(h) => true
    case Storing(h, ca, token) => ca == h.ca && token == h.token && w.history[w.seen].hash == Some(h)
    case Verifying(h) => w.secret == Stored(h)
    case Updating(h, version) => w.secret == Stored(h) && version == w.seen && w.history[version].hash == Some(h)
  }

  /** While the agent prepares a patch only the manager's erasure changes what it read. */
  ghost predicate AgentOk(w: World)
    requires Sized(w)
  {
    w.agent.Patching? ==>
      && Complete(w.agent.creds) && Partial(w.agent.copy) && w.agent.copy.hash != Some(w.agent.creds)
      && Current(w).hash == w.agent.copy.hash
      && (Current(w) == w.agent.copy || Cleared(Current(w)))
  }

  /** What the manager works on was published in some version up to the last one it saw. */
  ghost predicate ManagerKnows(w: World)
    requires Sized(w)
  {
    !w.manager.Idle? ==> exists i :: 0 <= i <= w.seen && w.history[i].hash == Some(w.manager.hash)
  }

  ghost predicate Inv(w: World) {
    && Sized(w)
    && (forall i :: 0 <= i < |w.history| ==> Partial(w.history[i]))
    && ClearedIsStored(w) && ManagerOk(w) && AgentOk(w)
  }

  /** A patch never leaves all credential annotations absent: the sets differ, so it carries something. */
  lemma PatchPublishesSomething(current: Annotations, copy: Annotations, c: Creds)
    requires Complete(c) && Partial(copy) && copy.hash != Some(c) && (current == copy || Cleared(current)) && current.hash == copy.hash
    ensures Partial(Merged(current, copy, c)) && !Cleared(Merged(current, copy, c))
  {
  }

  lemma NextKeepsInv(w: World, a: Action)
    requires Inv(w) && Enabled(w, a)
    ensures Inv(Next(w, a))
  {
    if a.AgentPatch? {
      PatchPublishesSomething(Current(w), w.agent.copy, w.agent.creds);
    }
  }

  // --------------------------------------------------------------------- theorems

  ghost predicate Init(w: World) {
    w.history == [Annotations("", "", "", None, None)] && w.secret == None && w.manager == Idle && w.seen == 0 && w.agent == Quiet
  }

  ghost predicate StepAt(ws: seq<World>, acts: seq<Action>, i: nat)
    requires i < |acts| && |ws| == |acts| + 1
  {
    |ws[i].history| > 0 && Enabled(ws[i], acts[i]) && ws[i + 1] == Next(ws[i], acts[i])
  }

  ghost predicate IsRun(ws: seq<World>, acts: seq<Action>) {
    |ws| == |acts| + 1 && Init(ws[0]) && forall i: nat :: i < |acts| ==> StepAt(ws, acts, i)
  }

  lemma {:induction false} RunKeepsInv(ws: seq<World>, acts: seq<Action>, i: nat)
    requires IsRun(ws, acts) && i < |ws|
    ensures Inv(ws[i])
  {
    if i > 0 {
      RunKeepsInv(ws, acts, i - 1);
      assert StepAt(ws, acts, i - 1);
      NextKeepsInv(ws[i - 1], acts[i - 1]);
    }
  }

  /**
    In every run: whenever the credential annotations are gone after a publication, the Secret
    holds exactly the credentials of the published hash and the applied hash equals it.
  */
  lemma ClearedMeansStored(ws: seq<World>, acts: seq<Action>, i: nat)
    requires IsRun(ws, acts) && i < |ws|
    ensures |ws[i].history| > 0
    ensures var now := Current(ws[i]);
            Cleared(now) && now.hash.Some? ==> now.applied == now.hash && ws[i].secret == Stored(now.hash.value)
  {
    RunKeepsInv(ws, acts, i);
  }

  /** In every run: a step that takes credentials away has the very set of the published hash in the Secret. */
  lemma ErasesOnlyWhatIsStored(ws: seq<World>, acts: seq<Action>, i: nat)
    requires IsRun(ws, acts) && i < |acts|
    ensures |ws[i].history| > 0 && |ws[i + 1].history| > 0
    ensures !Cleared(Current(ws[i])) && Cleared(Current(ws[i + 1])) ==>
      Current(ws[i]).hash.Some? && ws[i].secret == Stored(Current(ws[i]).hash.value) == ws[i + 1].secret
  {
    RunKeepsInv(ws, acts, i);
    RunKeepsInv(ws, acts, i + 1);
    assert StepAt(ws, acts, i);
    if acts[i].AgentPatch? {
      PatchPublishesSomething(Current(ws[i]), ws[i].agent.copy, ws[i].agent.creds);
    }
  }

  // ------------------------------------------------------- complete publications

  /**
    A publication is complete exactly when nothing the patch leaves out has been erased since
    the copy was read: each annotation differs from the copy's or is still in place.
  */
  lemma PublishesIntactIff(w: World)
    requires Inv(w) && w.agent.Patching?
    ensures var now, copy, c := Current(w), w.agent.copy, w.agent.creds;
            Intact(Current(Next(w, AgentPatch))) <==>
              !Cleared(now) || (copy.ca != c.ca && copy.token != c.token && copy.url != c.url)
  {
    var now, copy, c := Current(w), w.agent.copy, w.agent.creds;
    assert Partial(now) && Partial(copy);
  }

  /** A read and a patch with no erasure between them publish the whole set. */
  lemma AtomicPublicationIsIntact(w: World, creds: Creds)
    requires Inv(w) && Enabled(w, AgentRead(creds))
    ensures var after := Next(Next(w, AgentRead(creds)), AgentPatch);
            Intact(Current(after)) && Current(after).hash == Some(creds)
  {
  }

  /** Without its CA or token a set is refused by the manager. */
  predicate Incomplete(a: Annotations) {
    a.ca == "" || a.token == ""
  }

  /** The manager can still bring `h` to an end: it can read a complete version of it, or is past its check and not behind. */
  ghost predicate Completable(w: World, h: Creds)
    requires |w.history| > 0
  {
    || (exists i :: w.seen <= i < |w.history| && w.history[i].hash == Some(h) && !Incomplete(w.history[i]))
    || ((w.manager.Storing? || w.manager.Verifying?) && w.manager.hash == h)
    || (w.manager.Updating? && w.manager.hash == h && w.manager.version == |w.history| - 1)
  }

  /** The set `h` is published, and neither side will bring it to an end. */
  ghost predicate Locked(w: World, h: Creds) {
    Inv(w) && Current(w).hash == Some(h) && w.agent.Quiet? && !Completable(w, h)
  }

  /** The Secret as it was, or some other set than `h`. */
  ghost predicate SecretWithout(before: Option<Secret>, now: Option<Secret>, h: Creds) {
    now == before || exists g :: g != h && now == Stored(g)
  }

  /** While the agent offers only `h`, the current annotations stay as they are; the Secret may get an older set, never `h`. */
  lemma LockedStays(w: World, a: Action, h: Creds)
    requires Locked(w, h) && Enabled(w, a) && (a.AgentRead? ==> a.creds == h)
    ensures Locked(Next(w, a), h) && Current(Next(w, a)) == Current(w)
    ensures SecretWithout(w.secret, Next(w, a).secret, h)
  {
    NextKeepsInv(w, a);
    if a.StoreSecret? {
      assert Next(w, a).secret == Stored(w.manager.hash);
    }
  }

  /**
    Over a run, stale reads and crashes included: as long as the agent offers nothing but `h`,
    an incomplete publication of `h` is what every later version shows, and no step stores `h`.
    Meanwhile the manager may still store a set it reads from an older version.
  */
  lemma {:induction false} IncompleteStays(ws: seq<World>, acts: seq<Action>, i: nat, j: nat, h: Creds)
    requires IsRun(ws, acts) && i <= j < |ws| && Locked(ws[i], h)
    requires forall k :: i <= k < j && acts[k].AgentRead? ==> acts[k].creds == h
    ensures Locked(ws[j], h) && Current(ws[j]) == Current(ws[i]) && Incomplete(Current(ws[j]))
    ensures SecretWithout(ws[i].secret, ws[j].secret, h)
    decreases j
  {
    if i < j {
      IncompleteStays(ws, acts, i, j - 1, h);
      assert StepAt(ws, acts, j - 1);
      LockedStays(ws[j - 1], acts[j - 1], h);
    }
  }

  /** The worlds these actions pass through end in `v`. */
  ghost predicate Leads(w: World, acts: seq<Action>, v: World)
    decreases |acts|
  {
    if acts == [] then v == w
    else |w.history| > 0 && Enabled(w, acts[0]) && Leads(Next(w, acts[0]), acts[1..], v)
  }

  predicate ByManager(a: Action) {
    !a.Touch? && !a.AgentRead? && !a.AgentPatch? && !a.AgentCrash?
  }

  lemma LeadsOn(w: World, a: Action, acts: seq<Action>, v: World)
    requires |w.history| > 0 && Enabled(w, a) && Leads(Next(w, a), acts, v)
    ensures Leads(w, [a] + acts, v)
  {
    assert ([a] + acts)[1..] == acts;
  }

  /** `h` is stored and erased by manager steps alone. */
  ghost predicate Completes(w: World, h: Creds, acts: seq<Action>, v: World) {
    && (forall a :: a in acts ==> ByManager(a)) && Leads(w, acts, v)
    && |v.history| > 0 && Cleared(Current(v)) && Current(v).applied == Some(h) && v.secret == Stored(h)
  }

  lemma CompletesOn(w: World, a: Action, h: Creds, acts: seq<Action>, v: World)
    requires |w.history| > 0 && Enabled(w, a) && ByManager(a) && Completes(Next(w, a), h, acts, v)
    ensures Completes(w, h, [a] + acts, v)
  {
    LeadsOn(w, a, acts, v);
  }

  lemma UpdatingCompletes(w: World, h: Creds) returns (acts: seq<Action>, v: World)
    requires Inv(w) && Current(w).hash == Some(h) && w.manager == Updating(h, |w.history| - 1)
    ensures Completes(w, h, acts, v)
  {
    v := Next(w, UpdateCluster);
    assert Completes(v, h, [], v);
    CompletesOn(w, UpdateCluster, h, [], v);
    acts := [UpdateCluster] + [];
  }

  lemma VerifyingCompletes(w: World, h: Creds) returns (acts: seq<Action>, v: World)
    requires Inv(w) && Current(w).hash == Some(h) && w.manager == Verifying(h)
    ensures Completes(w, h, acts, v)
  {
    var latest := ReadLatest(|w.history| - 1);
    NextKeepsInv(w, latest);
    acts, v := UpdatingCompletes(Next(w, latest), h);
    CompletesOn(w, latest, h, acts, v);
    acts := [latest] + acts;
  }

  lemma StoringCompletes(w: World, h: Creds) returns (acts: seq<Action>, v: World)
    requires Inv(w) && Current(w).hash == Some(h) && w.manager.Storing? && w.manager.hash == h
    ensures Completes(w, h, acts, v)
  {
    NextKeepsInv(w, StoreSecret);
    acts, v := VerifyingCompletes(Next(w, StoreSecret), h);
    CompletesOn(w, StoreSecret, h, acts, v);
    acts := [StoreSecret] + acts;
  }

  lemma ReadableCompletes(w: World, h: Creds, i: nat) returns (acts: seq<Action>, v: World)
    requires Inv(w) && Current(w).hash == Some(h) && w.manager.Idle?
    requires w.seen <= i < |w.history| && w.history[i].hash == Some(h) && !Incomplete(w.history[i])
    ensures Completes(w, h, acts, v)
  {
    var w1 := Next(w, Consume(i));
    NextKeepsInv(w, Consume(i));
    NextKeepsInv(w1, ReadLive(i));
    acts, v := StoringCompletes(Next(w1, ReadLive(i)), h);
    CompletesOn(w1, ReadLive(i), h, acts, v);
    CompletesOn(w, Consume(i), h, [ReadLive(i)] + acts, v);
    acts := [Consume(i)] + ([ReadLive(i)] + acts);
  }

  /** Unless it is locked, a published set can still be stored and erased by the manager alone. */
  lemma CompletesUnlessLocked(w: World, h: Creds) returns (acts: seq<Action>, v: World)
    requires Inv(w) && Current(w).hash == Some(h) && w.agent.Quiet? && !Locked(w, h)
    ensures Completes(w, h, acts, v)
  {
    if i :| w.seen <= i < |w.history| && w.history[i].hash == Some(h) && !Incomplete(w.history[i]) {
      NextKeepsInv(w, GiveUp);
      acts, v := ReadableCompletes(Next(w, GiveUp), h, i);
      CompletesOn(w, GiveUp, h, acts, v);
      acts := [GiveUp] + acts;
    } else if w.manager.Storing? {
      acts, v := StoringCompletes(w, h);
    } else if w.manager.Verifying? {
      acts, v := VerifyingCompletes(w, h);
    } else {
      acts, v := UpdatingCompletes(w, h);
    }
  }

  /**
    A publication, the first of its set or not, is locked exactly when it lacks its CA or
    token, every older version the manager can still read lacks one as well, and the manager
    is not between its check of the set and its last read.
  */
  lemma PublicationLocksIff(w: World)
    requires Inv(w) && w.agent.Patching?
    ensures var c, after := w.agent.creds, Next(w, AgentPatch);
            Locked(after, c) <==>
              && Incomplete(Current(after))
              && (forall i :: w.seen <= i < |w.history| && w.history[i].hash == Some(c) ==> Incomplete(w.history[i]))
              && !((w.manager.Storing? || w.manager.Verifying?) && w.manager.hash == c)
  {
    NextKeepsInv(w, AgentPatch);
    var c, after := w.agent.creds, Next(w, AgentPatch);
    assert after.history[|w.history|] == Current(after);
    assert forall i :: 0 <= i < |w.history| ==> after.history[i] == w.history[i];
  }

  /** So a first publication of a set is locked exactly when it lacks its CA or token. */
  lemma FirstPublicationLocksIff(w: World)
    requires Inv(w) && ManagerKnows(w) && w.agent.Patching?
    requires forall i :: 0 <= i < |w.history| ==> w.history[i].hash != Some(w.agent.creds)
    ensures Locked(Next(w, AgentPatch), w.agent.creds) <==> Incomplete(Current(Next(w, AgentPatch)))
  {
    PublicationLocksIff(w);
  }

  lemma NextKeepsKnowledge(w: World, a: Action)
    requires Inv(w) && ManagerKnows(w) && Enabled(w, a)
    ensures Inv(Next(w, a)) && ManagerKnows(Next(w, a))
  {
    NextKeepsInv(w, a);
    var v := Next(w, a);
    if !v.manager.Idle? {
      if a.Consume? {
        assert v.history[a.version].hash == Some(v.manager.hash);
      } else {
        var i :| 0 <= i <= w.seen && w.history[i].hash == Some(w.manager.hash);
        assert v.history[i].hash == Some(v.manager.hash);
      }
    }
  }

  /** In every run what the manager works on was published before. */
  lemma {:induction false} RunKeepsKnowledge(ws: seq<World>, acts: seq<Action>, i: nat)
    requires IsRun(ws, acts) && i < |ws|
    ensures Inv(ws[i]) && ManagerKnows(ws[i])
  {
    if i > 0 {
      RunKeepsKnowledge(ws, acts, i - 1);
      assert StepAt(ws, acts, i - 1);
      NextKeepsKnowledge(ws[i - 1], acts[i - 1]);
    }
  }

  /** The handshake completes: with current reads and no other writer, five manager steps store and erase an intact set. */
  lemma HandshakeCompletes(w: World)
    requires Inv(w) && w.manager.Idle? && Intact(Current(w))
    ensures var v := |w.history| - 1;
            var w1 := Next(w, Consume(v));
            var w2 := Next(w1, ReadLive(v));
            var w3 := Next(w2, StoreSecret);
            var w4 := Next(w3, ReadLatest(v));
            var w5 := Next(w4, UpdateCluster);
            Cleared(Current(w5)) && w5.secret == Stored(Current(w).hash.value) && Current(w5).applied == Current(w).hash
  {
  }

  /** The run of a token rotation that the manager's erasure overtakes, step by step. */
  function Rotation(): seq<Action> {
    var first, second := Creds("ca", "old token", "url"), Creds("ca", "new token", "url");
    [AgentRead(first), AgentPatch, Consume(1), ReadLive(1), StoreSecret, ReadLatest(1), AgentRead(second), UpdateCluster, AgentPatch]
  }

  predicate EndsWithoutCa(w: World) {
    |w.history| > 0 && Current(w).hash.Some? && Current(w).token == Current(w).hash.value.token && Current(w).ca == "" && !Intact(Current(w))
  }

  function RotationWorlds(): seq<World> {
    var empty := Annotations("", "", "", None, None);
    var first, second := Creds("ca", "old token", "url"), Creds("ca", "new token", "url");
    var published := Annotations("ca", "old token", "url", Some(first), None);
    var erased := Annotations("", "", "", Some(first), Some(first));
    var lost := Annotations("", "new token", "", Some(second), Some(first));
    var two, three := [empty, published], [empty, published, erased];
    [World([empty], None, Idle, 0, Quiet),
     World([empty], None, Idle, 0, Patching(empty, first)),
     World(two, None, Idle, 0, Quiet),
     World(two, None, Consuming(first), 1, Quiet),
     World(two, None, Storing(first, "ca", "old token"), 1, Quiet),
     World(two, Stored(first), Verifying(first), 1, Quiet),
     World(two, Stored(first), Updating(first, 1), 1, Quiet),
     World(two, Stored(first), Updating(first, 1), 1, Patching(published, second)),
     World(three, Stored(first), Idle, 1, Patching(published, second)),
     World(three + [lost], Stored(first), Idle, 1, Quiet)]
  }

  lemma RotationStarts()
    ensures forall i: nat :: i < 4 ==> StepAt(RotationWorlds(), Rotation(), i)
  {
    var ws, acts := RotationWorlds(), Rotation();
    assert StepAt(ws, acts, 0);
    assert StepAt(ws, acts, 1);
    assert StepAt(ws, acts, 2);
    assert StepAt(ws, acts, 3);
  }

  lemma RotationEnds()
    ensures forall i: nat :: 4 <= i < 9 ==> StepAt(RotationWorlds(), Rotation(), i)
  {
    var ws, acts := RotationWorlds(), Rotation();
    assert StepAt(ws, acts, 4);
    assert StepAt(ws, acts, 5);
    assert StepAt(ws, acts, 6);
    assert StepAt(ws, acts, 7);
    assert StepAt(ws, acts, 8);
  }

  /**
    Such a run exists from the start: the new token is published without the CA it shares
    with the old set, and the publication is locked from there on.
  */
  lemma RotationCanLoseTheCa()
    ensures exists ws: seq<World> :: IsRun(ws, Rotation()) && EndsWithoutCa(ws[9]) && Locked(ws[9], Creds("ca", "new token", "url"))
  {
    RotationStarts();
    RotationEnds();
    var ws := RotationWorlds();
    assert IsRun(ws, Rotation());
    RunKeepsInv(ws, Rotation(), 9);
    assert EndsWithoutCa(ws[9]);
  }
}
