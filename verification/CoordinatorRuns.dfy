/**
 * Every interleaving of the polling loop, the workers, the callers of `cancel_task` and process
 * restarts.  A store call does not suspend; the polling loop is still cut around its listing, so
 * that the list it works on may be out of date.  `started` is a history variable.
 */
module CoordinatorRuns {
  import opened Options
  import opened Coordinator

  datatype Caller =
    | Waiting(id: TaskId, worker: WorkerId)   // cancel_task awaits the worker it cancelled
    | Returned(id: TaskId, result: Option<Record>)
    | Gone                                    // lost in a crash

  datatype Loop =
    | Off                                     // not started, or stopped
    | Top                                     // asleep, or about to test the stop flag
    | Swept(slots: nat)                       // reaped, about to list
    | Listed(pending: seq<TaskId>, slots: nat)
    | Draining

  datatype State = State(
    f: Fields,
    callers: seq<Caller>,
    loop: Loop,
    max: nat,
    started: seq<TaskId>)                     // backend.execute was entered for these, in order

  datatype Outcome = Succeeds | Fails | Raises

  datatype Event =
    | Enqueue(id: TaskId, delegation: bool, backendKnown: bool, session: nat)
    | Start
    | Reap
    | ListPending(pending: seq<TaskId>)
    | Spawn
    | StopSeen                                // the loop leaves and drains
    | DrainEnds
    | ShutdownCancels                         // stop() lost patience: every worker is cancelled
    | WorkerBegins(w: WorkerId)
    | BackendEnds(w: WorkerId, outcome: Outcome)
    | CancelLands(w: WorkerId)
    | CallbackEnds(w: WorkerId)
    | CancelCall(id: TaskId, scope: Option<nat>)
    | CancelResumes(c: nat)
    | Crash

  function Initial(max: nat): State {
    State(Fields(map[], map[], {}, []), [], Off, max, [])
  }

  predicate Enumerates(xs: seq<TaskId>, store: map<TaskId, Record>) {
    && (forall id :: id in store && store[id].status == PENDING ==> id in xs)
    && (forall id :: id in xs ==> id in store && store[id].status == PENDING)
  }

  function CancelAll(f: Fields): Fields {
    f.(workers := seq(|f.workers|, i requires 0 <= i < |f.workers| => f.workers[i].(cancelling := true)))
  }

  function Lost(f: Fields): Fields {
    Fields(f.store, map[], {},
           seq(|f.workers|, i requires 0 <= i < |f.workers| => f.workers[i].(phase := Ended)))
  }

  function StepCancelCall(s: State, id: TaskId, session: Option<nat>): State {
    var found := Find(s.f.store, id, session);
    if found.None? || Terminal(found.value.status) then
      s.(callers := s.callers + [Returned(id, found)])
    else if id in s.f.inflight && Live(s.f.workers, s.f.inflight[id]) then
      var w := s.f.inflight[id];
      s.(f := Cancel(s.f.(cancelRequested := s.f.cancelRequested + {id}), w),
         callers := s.callers + [Waiting(id, w)])
    else
      var store := Settled(s.f.store, id);
      s.(f := s.f.(store := store), callers := s.callers + [Returned(id, Lookup(store, id))])
  }

  function StepCancelResumes(s: State, c: nat): State {
    if c >= |s.callers| || !s.callers[c].Waiting? || Live(s.f.workers, s.callers[c].worker) then s
    else
      var id := s.callers[c].id;
      var store := Settled(s.f.store, id);
      s.(f := s.f.(store := store, cancelRequested := s.f.cancelRequested - {id}),
         callers := s.callers[c := Returned(id, Lookup(store, id))])
  }

  function StepWorker(s: State, e: Event): State
    requires e.WorkerBegins? || e.BackendEnds? || e.CancelLands? || e.CallbackEnds?
  {
    if e.w >= |s.f.workers| then s
    else
      var worker := s.f.workers[e.w];
      match (e, worker.phase)
      case (WorkerBegins(w), Scheduled) =>
        s.(f := Begun(s.f, w), started := s.started + if StartsBackend(s.f, w) then [worker.task] else [])
      case (BackendEnds(w, outcome), Executing) => s.(f := Finished(s.f, w, outcome.Succeeds?))
      case (CancelLands(w), Executing) => if worker.cancelling then s.(f := Cancelled(s.f, w)) else s
      case (CancelLands(w), Notifying) => if worker.cancelling then s.(f := Cancelled(s.f, w)) else s
      case (CallbackEnds(w), Notifying) => s.(f := SetPhase(s.f, w, Ended))
      case _ => s
  }

  function Step(s: State, e: Event): State {
    match e
    case Enqueue(id, delegation, backendKnown, session) =>
      if id in s.f.store then s
      else s.(f := s.f.(store := s.f.store[id := Record(PENDING, delegation, backendKnown, session)]))
    case Start => if !s.loop.Off? then s else s.(f := s.f.(store := Recovered(s.f.store)), loop := Top)
    case Reap =>
      if !s.loop.Top? then s else s.(f := Reaped(s.f), loop := Swept(Slots(Reaped(s.f), s.max)))
    case ListPending(pending) =>
      if !s.loop.Swept? then s
      else if s.loop.slots == 0 then s.(loop := Top)
      else if !Enumerates(pending, s.f.store) then s
      else s.(loop := Listed(pending, s.loop.slots))
    case Spawn =>
      if !s.loop.Listed? then s
      else s.(f := SpawnAll(s.f, s.loop.pending, s.loop.slots), loop := Top)
    case StopSeen => if !s.loop.Top? then s else s.(f := s.f.(inflight := map[]), loop := Draining)
    case DrainEnds =>
      if s.loop.Draining? && (forall w :: 0 <= w < |s.f.workers| ==> s.f.workers[w].phase.Ended?)
      then s.(loop := Off) else s
    case ShutdownCancels => if !s.loop.Draining? then s else s.(f := CancelAll(s.f))
    case WorkerBegins(_) => StepWorker(s, e)
    case BackendEnds(_, _) => StepWorker(s, e)
    case CancelLands(_) => StepWorker(s, e)
    case CallbackEnds(_) => StepWorker(s, e)
    case CancelCall(id, session) => StepCancelCall(s, id, session)
    case CancelResumes(c) => StepCancelResumes(s, c)
    case Crash =>
      s.(f := Lost(s.f), loop := Off,
         callers := seq(|s.callers|, i requires 0 <= i < |s.callers| =>
                          if s.callers[i].Waiting? then Gone else s.callers[i]))
  }

  function Run(s: State, events: seq<Event>): State
    decreases |events|
  {
    if events == [] then s else Run(Step(s, events[0]), events[1..])
  }

  // ---------------------------------------------------------------- what every step keeps

  predicate Running(loop: Loop) {
    loop.Top? || loop.Swept? || loop.Listed?
  }

  /** Each worker belongs to a stored task, and the table points at workers of its own keys. */
  ghost predicate TableInv(f: Fields) {
    && (forall id :: id in f.inflight ==>
          f.inflight[id] < |f.workers| && f.workers[f.inflight[id]].task == id)
    && (forall w :: 0 <= w < |f.workers| ==> f.workers[w].task in f.store)
  }

  /** While the loop runs, the table knows every live worker; so a task has at most one. */
  ghost predicate Tracked(f: Fields) {
    forall w :: Live(f.workers, w) ==>
      f.workers[w].task in f.inflight && f.inflight[f.workers[w].task] == w
  }

  ghost predicate OnePerTask(workers: seq<Worker>) {
    forall v, w :: Live(workers, v) && Live(workers, w) && workers[v].task == workers[w].task ==> v == w
  }

  /** A backend is started only for a task that has left PENDING for good. */
  ghost predicate StartedInv(f: Fields, started: seq<TaskId>) {
    && (forall i, j :: 0 <= i < j < |started| ==> started[i] != started[j])
    && (forall id :: id in started ==> id in f.store && f.store[id].status != PENDING)
    && (forall w :: Live(f.workers, w) && f.workers[w].phase.Scheduled? ==>
          f.workers[w].task !in started)
  }

  /** A listed task whose backend ran meanwhile is still in the table. */
  ghost predicate ListInv(f: Fields, pending: seq<TaskId>, started: seq<TaskId>) {
    forall id :: id in pending ==> id in f.store && (id in started ==> id in f.inflight)
  }

  function Reserved(loop: Loop): nat {
    match loop
    case Swept(slots) => slots
    case Listed(_, slots) => slots
    case _ => 0
  }

  function LiveSet(workers: seq<Worker>): set<WorkerId> {
    set w: WorkerId | 0 <= w < |workers| && Live(workers, w)
  }

  ghost predicate LoopInv(s: State) {
    && (Running(s.loop) ==> Tracked(s.f))
    && (s.loop.Off? ==> forall w :: !Live(s.f.workers, w))
    && (s.loop.Listed? ==> ListInv(s.f, s.loop.pending, s.started))
    && |s.f.inflight| + Reserved(s.loop) <= s.max
    && |LiveSet(s.f.workers)| <= s.max
  }

  ghost predicate Inv(s: State) {
    TableInv(s.f) && OnePerTask(s.f.workers) && StartedInv(s.f, s.started) && LoopInv(s)
  }

  // ---------------------------------------------------------------- spawning

  lemma SpawnOneKeeps(f: Fields, id: TaskId, started: seq<TaskId>)
    requires TableInv(f) && Tracked(f) && StartedInv(f, started)
    requires Spawnable(f, id) && id !in started
    ensures var f' := SpawnOne(f, id);
            TableInv(f') && Tracked(f') && StartedInv(f', started) && |f'.inflight| == |f.inflight| + 1
  {
    var f' := SpawnOne(f, id);
    assert f'.inflight.Keys == f.inflight.Keys + {id};
    forall w | Live(f'.workers, w)
      ensures f'.workers[w].task in f'.inflight && f'.inflight[f'.workers[w].task] == w
      ensures f'.workers[w].phase.Scheduled? ==> f'.workers[w].task !in started
    {
      if w < |f.workers| {
        assert Live(f.workers, w);
      }
    }
  }

  lemma {:induction false} SpawnAllKeeps(f: Fields, pending: seq<TaskId>, slots: nat, started: seq<TaskId>)
    requires TableInv(f) && Tracked(f) && StartedInv(f, started) && ListInv(f, pending, started)
    ensures var f' := SpawnAll(f, pending, slots);
            && TableInv(f') && Tracked(f') && StartedInv(f', started)
            && |f'.inflight| <= |f.inflight| + slots
            && f'.store == f.store && f'.cancelRequested == f.cancelRequested
    decreases |pending|
  {
    if pending != [] && slots != 0 {
      assert pending[0] in pending;
      if Spawnable(f, pending[0]) {
        SpawnOneKeeps(f, pending[0], started);
        SpawnAllKeeps(SpawnOne(f, pending[0]), pending[1..], slots - 1, started);
      } else {
        SpawnAllKeeps(f, pending[1..], slots, started);
      }
    }
  }

  lemma {:induction false} ImageBound(m: map<TaskId, WorkerId>, ws: set<WorkerId>)
    requires forall w :: w in ws ==> exists id :: id in m && m[id] == w
    ensures |ws| <= |m|
    decreases |m|
  {
    if ws != {} {
      var w :| w in ws;
      var id :| id in m && m[id] == w;
      var rest := m - {id};
      assert rest.Keys == m.Keys - {id};
      forall v | v in ws - {w} ensures exists i :: i in rest && rest[i] == v {
        var i :| i in m && m[i] == v;
        assert i in rest && rest[i] == v;
      }
      ImageBound(rest, ws - {w});
    }
  }

  lemma TrackedBound(f: Fields)
    requires Tracked(f)
    ensures OnePerTask(f.workers) && |LiveSet(f.workers)| <= |f.inflight|
  {
    forall w | w in LiveSet(f.workers) ensures exists id :: id in f.inflight && f.inflight[id] == w {
      assert Live(f.workers, w);
      assert f.workers[w].task in f.inflight;
    }
    ImageBound(f.inflight, LiveSet(f.workers));
  }

  lemma SubsetBound<T>(a: set<T>, b: set<T>)
    requires a <= b
    ensures |a| <= |b|
  {
    if a != {} {
      var x :| x in a;
      SubsetBound(a - {x}, b - {x});
    }
  }

  // ---------------------------------------------------------------- single steps

  /** A change that starts no worker, loses no task and moves no status back to PENDING. */
  ghost predicate Shrinks(f: Fields, f': Fields) {
    && |f'.workers| == |f.workers|
    && (forall w :: 0 <= w < |f.workers| ==> f'.workers[w].task == f.workers[w].task)
    && (forall w :: Live(f'.workers, w) ==> Live(f.workers, w))
    && (forall w :: Live(f'.workers, w) && f'.workers[w].phase.Scheduled? ==>
          f.workers[w].phase.Scheduled?)
    && f'.store.Keys == f.store.Keys
    && (forall id :: id in f.store && f.store[id].status != PENDING ==> f'.store[id].status != PENDING)
  }

  lemma ShrinkOne(f: Fields, f': Fields)
    requires OnePerTask(f.workers) && Shrinks(f, f')
    ensures OnePerTask(f'.workers)
    ensures |LiveSet(f'.workers)| <= |LiveSet(f.workers)|
  {
    forall w ensures Live(f'.workers, w) ==> Live(f.workers, w) {}
    SubsetBound(LiveSet(f'.workers), LiveSet(f.workers));
  }

  lemma ShrinkStarted(f: Fields, f': Fields, started: seq<TaskId>)
    requires StartedInv(f, started) && Shrinks(f, f')
    ensures StartedInv(f', started)
  {
    forall w | Live(f'.workers, w) && f'.workers[w].phase.Scheduled?
      ensures f'.workers[w].task !in started
    {
      assert Live(f.workers, w);
    }
  }

  lemma ShrinkTracked(f: Fields, f': Fields)
    requires Tracked(f) && Shrinks(f, f') && f'.inflight == f.inflight
    ensures Tracked(f')
  {
    forall w | Live(f'.workers, w)
      ensures f'.workers[w].task in f'.inflight && f'.inflight[f'.workers[w].task] == w
    {
      assert Live(f.workers, w);
    }
  }

  lemma ShrinkKeeps(s: State, f': Fields)
    requires Inv(s) && Shrinks(s.f, f') && f'.inflight == s.f.inflight
    ensures Inv(s.(f := f'))
  {
    ShrinkOne(s.f, f');
    ShrinkStarted(s.f, f', s.started);
    if Running(s.loop) {
      ShrinkTracked(s.f, f');
    }
    forall w ensures Live(f'.workers, w) ==> Live(s.f.workers, w) {}
  }

  /** One live worker moves on, and its record leaves PENDING or stays as it is. */
  lemma MoveShrinks(f: Fields, f': Fields, w: WorkerId)
    requires TableInv(f) && Live(f.workers, w)
    requires |f'.workers| == |f.workers| && f'.workers == f.workers[w := f'.workers[w]]
    requires f'.workers[w].task == f.workers[w].task && !f'.workers[w].phase.Scheduled?
    requires f'.store == f.store || exists st :: st != PENDING && f'.store == SetStatus(f.store, f.workers[w].task, st)
    ensures Shrinks(f, f')
  {
    forall v | Live(f'.workers, v) ensures Live(f.workers, v) {}
  }

  lemma BegunMoves(f: Fields, w: WorkerId)
    requires Live(f.workers, w)
    ensures var f' := Begun(f, w);
            && |f'.workers| == |f.workers| && f'.workers == f.workers[w := f'.workers[w]]
            && f'.workers[w].task == f.workers[w].task && !f'.workers[w].phase.Scheduled?
            && f'.inflight == f.inflight
            && (f'.store == f.store || f'.store == SetStatus(f.store, f.workers[w].task, FAILED)
                || f'.store == SetStatus(f.store, f.workers[w].task, RUNNING))
  {}

  lemma BeginKeeps(s: State, w: WorkerId)
    requires Inv(s) && Live(s.f.workers, w) && s.f.workers[w].phase.Scheduled?
    ensures Inv(Step(s, WorkerBegins(w)))
  {
    var id := s.f.workers[w].task;
    var f' := Begun(s.f, w);
    BegunMoves(s.f, w);
    MoveShrinks(s.f, f', w);
    ShrinkKeeps(s, f');
    if StartsBackend(s.f, w) {
      StartKeeps(s.(f := f'), id, w);
    } else {
      assert s.started + [] == s.started;
    }
  }

  /** Recording that the backend of `id` was started. */
  lemma StartKeeps(s: State, id: TaskId, w: WorkerId)
    requires Inv(s) && w < |s.f.workers| && s.f.workers[w].task == id && s.f.workers[w].phase.Executing?
    requires id !in s.started && s.f.store[id].status != PENDING
    ensures Inv(s.(started := s.started + [id]))
  {
    assert Live(s.f.workers, w);
    forall v | Live(s.f.workers, v) && s.f.workers[v].phase.Scheduled?
      ensures s.f.workers[v].task != id
    {
      assert v != w;
    }
  }

  lemma WorkerKeeps(s: State, e: Event)
    requires Inv(s) && (e.WorkerBegins? || e.BackendEnds? || e.CancelLands? || e.CallbackEnds?)
    ensures Inv(StepWorker(s, e))
  {
    if e.w < |s.f.workers| && StepWorker(s, e).f != s.f {
      if e.WorkerBegins? {
        BeginKeeps(s, e.w);
      } else {
        OnlyFields(s, e);
        MovesOn(s.f, e);
        ShrinkKeeps(s, StepWorker(s, e).f);
      }
    }
  }

  /** Only the beginning of a worker touches more than the coordinator's fields. */
  lemma OnlyFields(s: State, e: Event)
    requires (e.BackendEnds? || e.CancelLands? || e.CallbackEnds?) && e.w < |s.f.workers|
    requires StepWorker(s, e).f != s.f
    ensures StepWorker(s, e) == s.(f := StepWorker(s, e).f)
    ensures Live(s.f.workers, e.w) && !s.f.workers[e.w].phase.Scheduled?
    ensures e.BackendEnds? ==> StepWorker(s, e).f == Finished(s.f, e.w, e.outcome.Succeeds?)
    ensures e.CancelLands? ==> StepWorker(s, e).f == Cancelled(s.f, e.w)
    ensures e.CallbackEnds? ==> StepWorker(s, e).f == SetPhase(s.f, e.w, Ended)
  {}

  lemma MovesOn(f: Fields, e: Event)
    requires TableInv(f) && (e.BackendEnds? || e.CancelLands? || e.CallbackEnds?)
    requires Live(f.workers, e.w) && !f.workers[e.w].phase.Scheduled?
    ensures e.BackendEnds? ==> Shrinks(f, Finished(f, e.w, e.outcome.Succeeds?))
    ensures e.CancelLands? ==> Shrinks(f, Cancelled(f, e.w))
    ensures e.CallbackEnds? ==> Shrinks(f, SetPhase(f, e.w, Ended))
  {
    if e.BackendEnds? {
      MoveShrinks(f, Finished(f, e.w, e.outcome.Succeeds?), e.w);
    } else if e.CancelLands? {
      MoveShrinks(f, Cancelled(f, e.w), e.w);
    } else {
      MoveShrinks(f, SetPhase(f, e.w, Ended), e.w);
    }
  }

  lemma ReapKeeps(s: State)
    requires Inv(s) && s.loop.Top?
    ensures Inv(Step(s, Reap))
  {
    var f' := Reaped(s.f);
    assert f'.inflight.Keys <= s.f.inflight.Keys;
    SubsetBound(f'.inflight.Keys, s.f.inflight.Keys);
    forall w | Live(f'.workers, w)
      ensures f'.workers[w].task in f'.inflight && f'.inflight[f'.workers[w].task] == w
    {
      assert Live(s.f.workers, w);
    }
  }

  lemma ListKeeps(s: State, pending: seq<TaskId>)
    requires Inv(s)
    ensures Inv(Step(s, ListPending(pending)))
  {}

  lemma SpawnKeeps(s: State)
    requires Inv(s)
    ensures Inv(Step(s, Spawn))
  {
    if s.loop.Listed? {
      SpawnAllKeeps(s.f, s.loop.pending, s.loop.slots, s.started);
      TrackedBound(Step(s, Spawn).f);
    }
  }

  lemma EnqueueKeeps(s: State, e: Event)
    requires Inv(s) && e.Enqueue?
    ensures Inv(Step(s, e))
  {}

  lemma CancelCallKeeps(s: State, id: TaskId, scope: Option<nat>)
    requires Inv(s)
    ensures Inv(StepCancelCall(s, id, scope))
  {
    var s' := StepCancelCall(s, id, scope);
    assert Shrinks(s.f, s'.f);
    ShrinkKeeps(s, s'.f);
  }

  lemma CancelResumesKeeps(s: State, c: nat)
    requires Inv(s)
    ensures Inv(StepCancelResumes(s, c))
  {
    var s' := StepCancelResumes(s, c);
    assert Shrinks(s.f, s'.f);
    ShrinkKeeps(s, s'.f);
  }

  lemma StartKeepsInv(s: State)
    requires Inv(s) && s.loop.Off?
    ensures Inv(Step(s, Start))
  {
    var f' := s.f.(store := Recovered(s.f.store));
    assert Shrinks(s.f, f');
    ShrinkKeeps(s, f');
  }

  lemma StopSeenKeeps(s: State)
    requires Inv(s)
    ensures Inv(Step(s, StopSeen))
  {}

  lemma DrainEndsKeeps(s: State)
    requires Inv(s)
    ensures Inv(Step(s, DrainEnds))
  {
    forall w ensures Step(s, DrainEnds).loop.Off? ==> !Live(s.f.workers, w) {}
  }

  lemma ShutdownKeeps(s: State)
    requires Inv(s)
    ensures Inv(Step(s, ShutdownCancels))
  {
    if s.loop.Draining? {
      assert Shrinks(s.f, CancelAll(s.f));
      ShrinkKeeps(s, CancelAll(s.f));
    }
  }

  lemma CrashKeeps(s: State)
    requires Inv(s)
    ensures Inv(Step(s, Crash))
  {
    var f' := Lost(s.f);
    forall w ensures !Live(f'.workers, w) {}
    assert LiveSet(f'.workers) == {};
  }

  lemma StepKeepsInv(s: State, e: Event)
    requires Inv(s)
    ensures Inv(Step(s, e))
  {
    match e
    case Enqueue(_, _, _, _) => EnqueueKeeps(s, e);
    case Start => if s.loop.Off? { StartKeepsInv(s); }
    case Reap => if s.loop.Top? { ReapKeeps(s); }
    case ListPending(pending) => ListKeeps(s, pending);
    case Spawn => SpawnKeeps(s);
    case CancelCall(id, scope) => CancelCallKeeps(s, id, scope);
    case CancelResumes(c) => CancelResumesKeeps(s, c);
    case WorkerBegins(_) => WorkerKeeps(s, e);
    case BackendEnds(_, _) => WorkerKeeps(s, e);
    case CancelLands(_) => WorkerKeeps(s, e);
    case CallbackEnds(_) => WorkerKeeps(s, e);
    case StopSeen => StopSeenKeeps(s);
    case DrainEnds => DrainEndsKeeps(s);
    case ShutdownCancels => ShutdownKeeps(s);
    case Crash => CrashKeeps(s);
  }
}
