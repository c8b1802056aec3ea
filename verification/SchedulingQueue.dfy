/**
  The scheduling queue: a map of active applications over a client-go work queue.
  Informer handlers, delayed retries and any number of schedulers interleave, one
  call at a time.

  The work queue keeps a key waiting (`queue`), marked for another round (`dirty`),
  handed to a scheduler (`processing`) or held back for a retry (`delayed`).
*/
module SchedulingQueue {
  import opened Prelude

  /** An application object; `version` tells one reading of it from another. */
  datatype App = App(key: string, version: nat)

  /** An active entry is `None` when it holds no application. */
  datatype State = State(
    active: map<string, Option<App>>,
    queue: seq<string>,
    dirty: set<string>,
    processing: set<string>,
    delayed: set<string>)

  // ------------------------------------------------------- the work queue's calls

  function Enqueue(s: State, key: string): State {
    if key in s.dirty then s
    else if key in s.processing then s.(dirty := s.dirty + {key})
    else s.(dirty := s.dirty + {key}, queue := s.queue + [key])
  }

  function Hand(s: State): State
    requires s.queue != []
  {
    s.(queue := s.queue[1..], dirty := s.dirty - {s.queue[0]}, processing := s.processing + {s.queue[0]})
  }

  function Finish(s: State, key: string): State {
    var done := s.(processing := s.processing - {key});
    if key in s.dirty then done.(queue := s.queue + [key]) else done
  }

  function Delay(s: State, key: string): State {
    s.(delayed := s.delayed + {key})
  }

  function Wake(s: State, key: string): State {
    Enqueue(s.(delayed := s.delayed - {key}), key)
  }

  // ----------------------------------------------------------- the queue's calls

  function Added(s: State, app: App): State {
    if app.key in s.active then s
    else Enqueue(s.(active := s.active[app.key := Some(app)]), app.key)
  }

  function AddedUnschedulable(s: State, key: string, entry: Option<App>): State {
    if key in s.active then s
    else Delay(s.(active := s.active[key := entry]), key)
  }

  /** An update of an entry without application dereferences a nil pointer. */
  predicate Panics(s: State, after: App) {
    after.key in s.active && s.active[after.key].None?
  }

  /** A panic comes after the old entry is removed and before anything else. */
  function Updated(s: State, before: App, after: App): State {
    var active := if before.key != after.key then s.active - {before.key} else s.active;
    if Panics(s, after) then s.(active := active)
    else if after.key in active then s.(active := active[after.key := Some(after)])
    else Enqueue(s.(active := active[after.key := Some(after)]), after.key)
  }

  function Deleted(s: State, key: string): State {
    s.(active := s.active - {key})
  }

  function Forgotten(s: State, key: string): State {
    s.(active := s.active - {key})
  }

  /** The queue as an object. Where the program blocks until a key waits, `Pop` returns no application. */
  class Queue {
    var active: map<string, Option<App>>
    var queue: seq<string>
    var dirty: set<string>
    var processing: set<string>
    var delayed: set<string>

    constructor ()
      ensures Contents() == State(map[], [], {}, {}, {})
    {
      active, queue, dirty, processing, delayed := map[], [], {}, {}, {};
    }

    ghost function Contents(): State
      reads this
    {
      State(active, queue, dirty, processing, delayed)
    }

    method Push(key: string)
      modifies this
      ensures Contents() == Enqueue(old(Contents()), key)
    {
      if key !in dirty {
        dirty := dirty + {key};
        if key !in processing {
          queue := queue + [key];
        }
      }
    }

    method Add(app: App)
      modifies this
      ensures Contents() == Added(old(Contents()), app)
      ensures app.key in old(active) ==> Contents() == old(Contents())
      ensures app.key !in old(active) ==> active == old(active)[app.key := Some(app)] && app.key in dirty
    {
      if app.key !in active {
        active := active[app.key := Some(app)];
        Push(app.key);
      }
    }

    method AddUnschedulableIfNotPresent(key: string, entry: Option<App>)
      modifies this
      ensures Contents() == AddedUnschedulable(old(Contents()), key, entry)
      ensures key in old(active) ==> Contents() == old(Contents())
      ensures key !in old(active) ==> active == old(active)[key := entry] && key in delayed && queue == old(queue)
    {
      if key !in active {
        active := active[key := entry];
        delayed := delayed + {key};
      }
    }

    method Update(before: App, after: App) returns (panicked: bool)
      modifies this
      ensures panicked <==> Panics(old(Contents()), after)
      ensures Contents() == Updated(old(Contents()), before, after)
      ensures !panicked ==> after.key in active && active[after.key] == Some(after)
      ensures before.key != after.key ==> before.key !in active
      ensures after.key !in old(active) ==> after.key in dirty
    {
      panicked := false;
      if before.key != after.key {
        active := active - {before.key};
      }
      if after.key in active {
        if active[after.key].None? {
          return true;
        }
        active := active[after.key := Some(after)];
      } else {
        active := active[after.key := Some(after)];
        Push(after.key);
      }
    }

    method Delete(key: string)
      modifies this
      ensures Contents() == Deleted(old(Contents()), key)
    {
      active := active - {key};
    }

    /** `Get` and the look-up behind it; an entry without application is handed back at once. */
    method Pop() returns (app: Option<App>)
      modifies this
      ensures old(queue) == [] ==> app.None? && Contents() == old(Contents())
      ensures old(queue) != [] ==>
        var key, handed := old(queue)[0], Hand(old(Contents()));
        if key in old(active) && old(active)[key].Some?
        then app == old(active)[key] && Contents() == handed
        else app.None? && Contents() == Finish(handed, key)
    {
      if queue == [] {
        return None;
      }
      var key := queue[0];
      queue, dirty, processing := queue[1..], dirty - {key}, processing + {key};
      if key !in active || active[key].None? {
        Done(key);
        return None;
      }
      app := active[key];
    }

    method Done(key: string)
      modifies this
      ensures Contents() == Finish(old(Contents()), key)
    {
      processing := processing - {key};
      if key in dirty {
        queue := queue + [key];
      }
    }

    method Forget(key: string)
      modifies this
      ensures Contents() == Forgotten(old(Contents()), key)
    {
      active := active - {key};
    }

    method Requeue(key: string)
      modifies this
      ensures Contents() == Delay(old(Contents()), key)
    {
      delayed := delayed + {key};
    }

    /**
      One scheduling round without interruption. Whichever check fails, the popped key is
      requeued, only a bound placement forgets it, and it is done in the end.
    */
    method ScheduleOne(round: Round) returns (app: Option<App>)
      modifies this
      ensures old(queue) != [] && app.Some? ==>
        var key, handed := app.value.key, Hand(old(Contents()));
        Contents() == Finish(if round.Succeeds() then Forgotten(handed, key) else Delay(handed, key), key)
      ensures old(queue) != [] && app.Some? && app.value.key == old(queue)[0] ==>
        var key, bound := app.value.key, round.clusters && round.feasible && round.scored && round.placed && round.bound;
        && key !in processing
        && (key in active <==> !bound)
        && (key in delayed <==> !bound || key in old(delayed))
    {
      app := Pop();
      if app.Some? {
        Attempt(app.value.key, round);
        Done(app.value.key);
      }
    }

    method Attempt(key: string, round: Round)
      modifies this
      ensures Contents() == if round.Succeeds() then Forgotten(old(Contents()), key) else Delay(old(Contents()), key)
      ensures round.clusters && round.feasible && round.scored && round.placed && round.bound ==> key !in active && delayed == old(delayed)
      ensures !(round.clusters && round.feasible && round.scored && round.placed && round.bound) ==>
        active == old(active) && delayed == old(delayed) + {key}
    {
      if !round.clusters {
        Requeue(key);
        return;
      }
      if !round.feasible {
        Requeue(key);
        return;
      }
      if !round.scored {
        Requeue(key);
        return;
      }
      if !round.placed {
        Requeue(key);
        return;
      }
      if !round.bound {
        Requeue(key);
        return;
      }
      Forget(key);
    }
  }

  /** How far a round gets: clusters known, one of them feasible, scores computed, a placement found and bound. */
  datatype Round = Round(clusters: bool, feasible: bool, scored: bool, placed: bool, bound: bool) {
    predicate Succeeds() {
      clusters && feasible && scored && placed && bound
    }
  }

  // ------------------------------------------------------------- interleavings

  /** Where a scheduler stands with the key it was handed. */
  datatype Phase =
    | Handed(key: string)
    | Working(key: string)
    | Resolved(key: string)
    | Skipping(key: string)

  type Worker = nat

  datatype World = World(state: State, workers: map<Worker, Phase>)

  datatype Action =
    | Add(app: App)
    | AddUnschedulable(key: string, entry: Option<App>)
    | Update(before: App, after: App)
    | Delete(key: string)
    | Fire(key: string)
    | Get(worker: Worker)
    | LookUp(worker: Worker)
    | Resolve(worker: Worker, scheduled: bool)
    | Done(worker: Worker)

  /** A panic ends the process and its queue with it, so an update that panics is no step. */
  predicate Enabled(w: World, a: Action) {
    match a
    case AddUnschedulable(key, entry) => entry.Some? ==> entry.value.key == key
    case Update(_, after) => !Panics(w.state, after)
    case Fire(key) => key in w.state.delayed
    case Get(worker) => worker !in w.workers && w.state.queue != []
    case LookUp(worker) => worker in w.workers && w.workers[worker].Handed?
    case Resolve(worker, _) => worker in w.workers && w.workers[worker].Working?
    case Done(worker) => worker in w.workers && (w.workers[worker].Resolved? || w.workers[worker].Skipping?)
    case _ => true
  }

  predicate Found(s: State, key: string) {
    key in s.active && s.active[key].Some?
  }

  function Next(w: World, a: Action): World
    requires Enabled(w, a)
  {
    match a
    case Add(app) => w.(state := Added(w.state, app))
    case AddUnschedulable(key, entry) => w.(state := AddedUnschedulable(w.state, key, entry))
    case Update(before, after) => w.(state := Updated(w.state, before, after))
    case Delete(key) => w.(state := Deleted(w.state, key))
    case Fire(key) => w.(state := Wake(w.state, key))
    case Get(worker) => World(Hand(w.state), w.workers[worker := Handed(w.state.queue[0])])
    case LookUp(worker) =>
      var key := w.workers[worker].key;
      w.(workers := w.workers[worker := if Found(w.state, key) then Working(key) else Skipping(key)])
    case Resolve(worker, scheduled) =>
      var key := w.workers[worker].key;
      World(if scheduled then Forgotten(w.state, key) else Delay(w.state, key), w.workers[worker := Resolved(key)])
    case Done(worker) => World(Finish(w.state, w.workers[worker].key), w.workers - {worker})
  }

  /** The work queue's own discipline. */
  ghost predicate Disciplined(w: World) {
    && (forall i, j :: 0 <= i < j < |w.state.queue| ==> w.state.queue[i] != w.state.queue[j])
    && (forall k :: k in w.state.queue ==> k in w.state.dirty && k !in w.state.processing)
    && (forall k :: k in w.state.dirty ==> k in w.state.queue || k in w.state.processing)
    && (forall n :: n in w.workers ==> w.workers[n].key in w.state.processing)
    && (forall k :: k in w.state.processing ==> exists n :: n in w.workers && w.workers[n].key == k)
    && (forall m, n :: m in w.workers && n in w.workers && w.workers[m].key == w.workers[n].key ==> m == n)
  }

  /** Something will still bring the key to a scheduler once its present round is over. */
  predicate Pending(s: State, key: string) {
    key in s.dirty || key in s.delayed
  }

  /** The key is queued, delayed, or with a scheduler that has yet to decide about it. */
  predicate Attended(w: World, key: string) {
    Pending(w.state, key) || InHand(w, key)
  }

  /** No active application is stranded. */
  ghost predicate NoneStranded(w: World) {
    forall k :: k in w.state.active ==> Attended(w, k)
  }

  lemma EnqueueKeepsDiscipline(w: World, key: string)
    requires Disciplined(w)
    ensures Disciplined(w.(state := Enqueue(w.state, key)))
  {
  }

  lemma NextKeepsDiscipline(w: World, a: Action)
    requires Disciplined(w) && Enabled(w, a)
    ensures Disciplined(Next(w, a))
  {
    if a.Get? {
      HandKeepsDiscipline(w, a.worker);
    } else if a.Done? {
      FinishKeepsDiscipline(w, a.worker);
    } else if a.LookUp? || a.Resolve? {
      PhaseKeepsDiscipline(w, a);
    } else if a.Update? {
      var active := if a.before.key != a.after.key then w.state.active - {a.before.key} else w.state.active;
      EnqueueKeepsDiscipline(w.(state := w.state.(active := active[a.after.key := Some(a.after)])), a.after.key);
    } else if a.Add? {
      EnqueueKeepsDiscipline(w.(state := w.state.(active := w.state.active[a.app.key := Some(a.app)])), a.app.key);
    } else if a.Fire? {
      EnqueueKeepsDiscipline(w.(state := w.state.(delayed := w.state.delayed - {a.key})), a.key);
    }
  }

  lemma HandKeepsDiscipline(w: World, n: Worker)
    requires Disciplined(w) && n !in w.workers && w.state.queue != []
    ensures Disciplined(Next(w, Get(n)))
  {
    var v := Next(w, Get(n));
    var key := w.state.queue[0];
    forall k | k in v.state.processing ensures exists m :: m in v.workers && v.workers[m].key == k {
      if k == key {
        assert v.workers[n].key == k;
      } else {
        var m :| m in w.workers && w.workers[m].key == k;
        assert v.workers[m].key == k;
      }
    }
  }

  lemma FinishKeepsDiscipline(w: World, n: Worker)
    requires Disciplined(w) && Enabled(w, Done(n))
    ensures Disciplined(Next(w, Done(n)))
  {
    var v := Next(w, Done(n));
    var key := w.workers[n].key;
    forall k | k in v.state.processing ensures exists m :: m in v.workers && v.workers[m].key == k {
      var m :| m in w.workers && w.workers[m].key == k;
      assert v.workers[m].key == k;
    }
  }

  lemma PhaseKeepsDiscipline(w: World, a: Action)
    requires Disciplined(w) && Enabled(w, a) && (a.LookUp? || a.Resolve?)
    ensures Disciplined(Next(w, a))
  {
    var v := Next(w, a);
    assert forall m :: m in v.workers ==> m in w.workers && v.workers[m].key == w.workers[m].key;
    forall k | k in v.state.processing ensures exists m :: m in v.workers && v.workers[m].key == k {
      var m :| m in w.workers && w.workers[m].key == k;
      assert v.workers[m].key == k;
    }
  }

  /** A look-up that finds an active entry without application and nothing pending for it. */
  predicate HandsBackActive(w: World, a: Action)
    requires Enabled(w, a)
  {
    a.LookUp? && var key := w.workers[a.worker].key; key in w.state.active && w.state.active[key].None? && !Pending(w.state, key)
  }

  /** A scheduler has the key and has yet to decide about it. */
  predicate InHand(w: World, key: string) {
    exists n :: n in w.workers && w.workers[n].key == key && (w.workers[n].Handed? || w.workers[n].Working?)
  }

  /** One key: a call of a handler or a retry that comes due keeps it attended. */
  lemma CallKeepsAttended(w: World, a: Action, k: string)
    requires Disciplined(w) && Enabled(w, a) && (a.Add? || a.AddUnschedulable? || a.Update? || a.Delete? || a.Fire?)
    requires k in w.state.active ==> Attended(w, k)
    ensures k in Next(w, a).state.active ==> Attended(Next(w, a), k)
  {
    assert InHand(Next(w, a), k) <==> InHand(w, k);
  }

  /** One key: a scheduler's step keeps it attended unless it hands back an empty entry. */
  lemma RoundKeepsAttended(w: World, a: Action, k: string)
    requires Disciplined(w) && Enabled(w, a) && (a.Get? || a.LookUp? || a.Resolve? || a.Done?)
    requires k in w.state.active ==> Attended(w, k)
    ensures !HandsBackActive(w, a) && k in Next(w, a).state.active ==> Attended(Next(w, a), k)
  {
    var v := Next(w, a);
    if !HandsBackActive(w, a) && k in v.state.active && !Pending(v.state, k) {
      if a.Get? && w.state.queue[0] == k {
        assert v.workers[a.worker] == Handed(k);
      } else if !Pending(w.state, k) {
        var n :| n in w.workers && w.workers[n].key == k && (w.workers[n].Handed? || w.workers[n].Working?);
        assert n in v.workers && v.workers[n].key == k && (v.workers[n].Handed? || v.workers[n].Working?);
      }
    }
  }

  lemma StaysAttended(w: World, a: Action, k: string)
    requires Disciplined(w) && Enabled(w, a)
    requires k in w.state.active ==> Attended(w, k)
    ensures !HandsBackActive(w, a) && k in Next(w, a).state.active ==> Attended(Next(w, a), k)
  {
    if a.Get? || a.LookUp? || a.Resolve? || a.Done? {
      RoundKeepsAttended(w, a, k);
    } else {
      CallKeepsAttended(w, a, k);
    }
  }

  /**
    A step strands an active application exactly when a look-up hands back an entry that
    holds no application while nothing else is pending for it.
  */
  lemma StrandedIff(w: World, a: Action)
    requires Disciplined(w) && Enabled(w, a) && NoneStranded(w)
    ensures NoneStranded(Next(w, a)) <==> !HandsBackActive(w, a)
  {
    var v := Next(w, a);
    if HandsBackActive(w, a) {
      var key := w.workers[a.worker].key;
      assert forall n :: n in v.workers && v.workers[n].key == key ==> n == a.worker;
      assert !Attended(v, key);
    } else {
      forall k | k in v.state.active ensures Attended(v, k) {
        StaysAttended(w, a, k);
      }
    }
  }

  lemma CallLeavesStranded(w: World, a: Action, k: string)
    requires Disciplined(w) && Enabled(w, a) && k in w.state.active && !Attended(w, k)
    requires a.Add? || a.AddUnschedulable? || a.Update? || a.Delete? || a.Fire?
    requires a != Delete(k) && !(a.Update? && a.before.key == k != a.after.key)
    ensures k in Next(w, a).state.active && !Attended(Next(w, a), k)
  {
    assert InHand(Next(w, a), k) <==> InHand(w, k);
  }

  /**
    A stranded application stays stranded: adding it again does nothing, only a deletion takes
    it out. Its entry stays empty, so that an update of it panics.
  */
  lemma StrandedStays(w: World, a: Action, k: string)
    requires Disciplined(w) && Enabled(w, a) && k in w.state.active && !Attended(w, k)
    requires a != Delete(k) && !(a.Update? && a.before.key == k != a.after.key)
    ensures k in Next(w, a).state.active && !Attended(Next(w, a), k)
    ensures w.state.active[k].None? ==> Next(w, a).state.active[k].None? && forall app: App :: app.key == k ==> Panics(Next(w, a).state, app)
  {
    if a.Get? || a.LookUp? || a.Resolve? || a.Done? {
      var v := Next(w, a);
      assert forall n :: n in w.workers && w.workers[n].key == k ==> w.workers[n].Resolved? || w.workers[n].Skipping?;
      forall n | n in v.workers && v.workers[n].key == k ensures v.workers[n].Resolved? || v.workers[n].Skipping? {
        if n in w.workers {
          assert v.workers[n].key == w.workers[n].key;
        }
      }
    } else {
      CallLeavesStranded(w, a, k);
    }
  }

  // --------------------------------------------------------------------- runs

  ghost predicate Filled(s: State) {
    forall k :: k in s.active ==> s.active[k].Some?
  }

  ghost predicate StepAt(ws: seq<World>, acts: seq<Action>, i: nat)
    requires i < |acts| && |ws| == |acts| + 1
  {
    Enabled(ws[i], acts[i]) && ws[i + 1] == Next(ws[i], acts[i])
  }

  /** From the empty queue, every entry handed in holds an application. */
  ghost predicate IsRun(ws: seq<World>, acts: seq<Action>) {
    && |ws| == |acts| + 1 && ws[0] == World(State(map[], [], {}, {}, {}), map[])
    && (forall i: nat :: i < |acts| ==> StepAt(ws, acts, i))
    && (forall i: nat :: i < |acts| ==> Supplies(acts[i]))
  }

  predicate Supplies(a: Action) {
    a.AddUnschedulable? ==> a.entry.Some?
  }

  /** In every run with proper entries no active application is ever stranded, and no key is with two schedulers. */
  lemma {:induction false} NeverStranded(ws: seq<World>, acts: seq<Action>, i: nat)
    requires IsRun(ws, acts) && i < |ws|
    ensures Disciplined(ws[i]) && Filled(ws[i].state) && NoneStranded(ws[i])
  {
    if i > 0 {
      NeverStranded(ws, acts, i - 1);
      assert StepAt(ws, acts, i - 1) && Supplies(acts[i - 1]);
      NextKeepsDiscipline(ws[i - 1], acts[i - 1]);
      StrandedIff(ws[i - 1], acts[i - 1]);
      StaysFilled(ws[i - 1], acts[i - 1]);
    }
  }

  /** In such runs no update ever panics. */
  lemma NeverPanics(ws: seq<World>, acts: seq<Action>, i: nat, app: App)
    requires IsRun(ws, acts) && i < |ws|
    ensures !Panics(ws[i].state, app)
  {
    NeverStranded(ws, acts, i);
  }

  lemma StaysFilled(w: World, a: Action)
    requires Enabled(w, a) && Filled(w.state) && Supplies(a)
    ensures Filled(Next(w, a).state)
  {
  }

  /**
    A request that arrives while its application is being scheduled survives the successful
    end of that round only if it comes after the scheduler's `Forget`: before it, the entry
    the request relied on is deleted with it.
  */
  lemma AddDuringRound(w: World, n: Worker, app: App)
    requires Disciplined(w) && n in w.workers && w.workers[n] == Working(app.key)
    ensures var early := Next(Next(Next(w, Add(app)), Resolve(n, true)), Done(n));
            app.key !in early.state.active
    ensures var late := Next(Next(Next(w, Resolve(n, true)), Add(app)), Done(n));
            app.key in late.state.active && app.key in late.state.queue
  {
  }

  /** The steps that take an active key's entry away: its deletion, a move to another key, the success of a round. */
  predicate Removes(w: World, a: Action, key: string)
    requires Enabled(w, a)
  {
    || a == Delete(key)
    || (a.Update? && a.before.key == key != a.after.key)
    || (a.Resolve? && a.scheduled && w.workers[a.worker].key == key)
  }

  lemma EntryKeptIff(w: World, a: Action, key: string)
    requires Enabled(w, a) && key in w.state.active
    ensures key in Next(w, a).state.active <==> !Removes(w, a, key)
  {
  }

  /** The key has an entry, and something will bring it to a scheduler. */
  ghost predicate OnFile(w: World, key: string) {
    key in w.state.active && Attended(w, key)
  }

  ghost predicate RemovesAt(ws: seq<World>, acts: seq<Action>, k: nat, key: string)
    requires k < |acts| && |ws| == |acts| + 1
  {
    Enabled(ws[k], acts[k]) && Removes(ws[k], acts[k], key)
  }

  lemma StepKeepsOnFileIff(ws: seq<World>, acts: seq<Action>, k: nat, key: string)
    requires IsRun(ws, acts) && k < |acts| && OnFile(ws[k], key)
    ensures OnFile(ws[k + 1], key) <==> !RemovesAt(ws, acts, k, key)
  {
    assert StepAt(ws, acts, k);
    NeverStranded(ws, acts, k + 1);
    EntryKeptIff(ws[k], acts[k], key);
  }

  lemma AddPutsOnFile(ws: seq<World>, acts: seq<Action>, i: nat, app: App)
    requires IsRun(ws, acts) && i < |acts| && acts[i] == Add(app)
    ensures OnFile(ws[i + 1], app.key)
  {
    assert StepAt(ws, acts, i);
    NeverStranded(ws, acts, i + 1);
  }

  /**
    In every run, whatever else happens: a request is on file from the step it arrives until
    a step removes the entry, and all the while something will bring it to a scheduler. So
    one that arrives while its key is being worked on is kept iff no success of a round on
    that key, no deletion and no move follows.
  */
  lemma {:induction false} RequestKeptIff(ws: seq<World>, acts: seq<Action>, i: nat, j: nat, app: App)
    requires IsRun(ws, acts) && i < j < |ws| && acts[i] == Add(app)
    ensures (forall k: nat :: i < k <= j ==> OnFile(ws[k], app.key)) <==> (forall k: nat :: i < k < j ==> !RemovesAt(ws, acts, k, app.key))
    decreases j
  {
    AddPutsOnFile(ws, acts, i, app);
    if i + 1 < j {
      RequestKeptIff(ws, acts, i, j - 1, app);
      if OnFile(ws[j - 1], app.key) {
        StepKeepsOnFileIff(ws, acts, j - 1, app.key);
      }
    }
  }

  /** The success of the round in which a request arrived loses it, whatever happens in between. */
  lemma SuccessLosesRequest(ws: seq<World>, acts: seq<Action>, i: nat, r: nat, n: Worker, app: App)
    requires IsRun(ws, acts) && i < r < |acts| && acts[i] == Add(app)
    requires n in ws[r].workers && ws[r].workers[n] == Working(app.key) && acts[r] == Resolve(n, true)
    ensures app.key !in ws[r + 1].state.active
  {
    assert StepAt(ws, acts, r);
  }

  /**
    An entry handed in without its application strands its key: four steps from the empty
    queue. Nothing but `AddUnschedulableIfNotPresent` can hand in such an entry.
  */
  lemma EmptyEntryStrands(key: string) returns (w: World)
    ensures var start := World(State(map[], [], {}, {}, {}), map[]);
            var added := Next(start, AddUnschedulable(key, None));
            Enabled(added, Fire(key)) &&
            var fired := Next(added, Fire(key));
            Enabled(fired, Get(0)) &&
            var handed := Next(fired, Get(0));
            Enabled(handed, LookUp(0)) && HandsBackActive(handed, LookUp(0)) && w == Next(handed, LookUp(0))
    ensures key in w.state.active && !Attended(w, key)
  {
    var waiting := World(State(map[key := None], [key], {key}, {}, {}), map[]);
    var added := Next(World(State(map[], [], {}, {}, {}), map[]), AddUnschedulable(key, None));
    assert added.state == State(map[key := None], [], {}, {}, {key});
    assert Next(added, Fire(key)) == waiting;
    var handed := Next(waiting, Get(0));
    assert handed == World(State(map[key := None], [], {}, {key}, {}), map[0 := Handed(key)]);
    w := Next(handed, LookUp(0));
  }
}
