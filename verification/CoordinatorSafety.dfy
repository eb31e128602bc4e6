/** What holds in every run of the delegation coordinator, and when a cancellation is final. */
module CoordinatorSafety {
  import opened Options
  import opened Coordinator
  import opened CoordinatorRuns

  lemma {:induction false} RunKeepsInv(s: State, events: seq<Event>)
    requires Inv(s)
    ensures Inv(Run(s, events))
    decreases |events|
  {
    if events != [] {
      StepKeepsInv(s, events[0]);
      RunKeepsInv(Step(s, events[0]), events[1..]);
    }
  }

  lemma {:induction false} Reachable(max: nat, events: seq<Event>)
    ensures Inv(Run(Initial(max), events))
    ensures Run(Initial(max), events).max == max
  {
    assert LiveSet([]) == {};
    RunKeepsInv(Initial(max), events);
    MaxIsFixed(Initial(max), events);
  }

  lemma {:induction false} MaxIsFixed(s: State, events: seq<Event>)
    ensures Run(s, events).max == s.max
    decreases |events|
  {
    if events != [] {
      MaxIsFixed(Step(s, events[0]), events[1..]);
    }
  }

  // ---------------------------------------------------------------- no double run

  /**
   * In every run, restarts and crashes included, a backend is started at most once per task, even
   * when workers are created from a listing that is out of date.
   */
  lemma {:induction false} NoDoubleRun(max: nat, events: seq<Event>)
    ensures var started := Run(Initial(max), events).started;
            forall i, j :: 0 <= i < j < |started| ==> started[i] != started[j]
  {
    Reachable(max, events);
  }

  /** The table never outgrows the worker limit, and neither do the live workers. */
  lemma {:induction false} WorkerLimit(max: nat, events: seq<Event>)
    ensures |Run(Initial(max), events).f.inflight| <= max
    ensures |LiveSet(Run(Initial(max), events).f.workers)| <= max
  {
    Reachable(max, events);
  }

  /** Workers past their first line, that is, inside the worker semaphore. */
  function InsideSemaphore(workers: seq<Worker>): set<WorkerId> {
    set w: WorkerId | 0 <= w < |workers| && Live(workers, w) && !workers[w].phase.Scheduled?
  }

  /** A worker that begins never waits for the semaphore. */
  lemma {:induction false} SemaphoreNeverBlocks(max: nat, events: seq<Event>, w: WorkerId)
    requires Live(Run(Initial(max), events).f.workers, w)
    requires Run(Initial(max), events).f.workers[w].phase.Scheduled?
    ensures |InsideSemaphore(Run(Initial(max), events).f.workers)| < max
  {
    Reachable(max, events);
    var workers := Run(Initial(max), events).f.workers;
    assert InsideSemaphore(workers) + {w} <= LiveSet(workers);
    SubsetBound(InsideSemaphore(workers) + {w}, LiveSet(workers));
  }

  // ---------------------------------------------------------------- cancellation settles

  /** Every `cancel_task` that returned, returned None or a terminal record. */
  ghost predicate Answered(callers: seq<Caller>) {
    forall c :: 0 <= c < |callers| && callers[c].Returned? ==>
      callers[c].result.None? || Terminal(callers[c].result.value.status)
  }

  lemma StepAnswers(s: State, e: Event)
    requires Answered(s.callers)
    ensures Answered(Step(s, e).callers)
  {}

  lemma {:induction false} RunAnswers(s: State, events: seq<Event>)
    requires Answered(s.callers)
    ensures Answered(Run(s, events).callers)
    decreases |events|
  {
    if events != [] {
      StepAnswers(s, events[0]);
      RunAnswers(Step(s, events[0]), events[1..]);
    }
  }

  /** `cancel_task` answers None or a terminal record, wherever the cancellation lands. */
  lemma {:induction false} CancelSettles(max: nat, events: seq<Event>, c: nat)
    requires c < |Run(Initial(max), events).callers|
    requires Run(Initial(max), events).callers[c].Returned?
    ensures var result := Run(Initial(max), events).callers[c].result;
            result.None? || Terminal(result.value.status)
  {
    RunAnswers(Initial(max), events);
  }

  // ---------------------------------------------------------------- what an orderly run keeps

  /** A caller of `cancel_task` whose worker has ended and that has not resumed yet. */
  ghost predicate ResumeDue(s: State) {
    exists c :: 0 <= c < |s.callers| && s.callers[c].Waiting? && !Live(s.f.workers, s.callers[c].worker)
  }

  /**
   * The three conditions under which the coordinator is safe from its own races: nothing runs
   * between a listing and the spawning, a canceller resumes before the loop reaps (or starts), and
   * nobody cancels while the loop drains.
   */
  ghost predicate Orderly(s: State, e: Event) {
    && (s.loop.Swept? ==> e.ListPending?)
    && (s.loop.Listed? ==> e.Spawn?)
    && (e.Reap? || e.Start? ==> !ResumeDue(s))
    && (e.CancelCall? ==> !s.loop.Draining?)
  }

  ghost predicate OrderlyRun(s: State, events: seq<Event>)
    decreases |events|
  {
    events != [] ==> Orderly(s, events[0]) && OrderlyRun(Step(s, events[0]), events[1..])
  }

  /** A worker's phase tells its record's status. */
  ghost predicate PhaseInv(f: Fields) {
    forall w :: Live(f.workers, w) && f.workers[w].task in f.store ==>
      && (f.workers[w].phase.Scheduled? ==> f.store[f.workers[w].task].status == PENDING)
      && (f.workers[w].phase.Executing? ==> f.store[f.workers[w].task].status == RUNNING)
  }

  /** A waiting canceller holds the task's only worker, whose cancellation is on its way. */
  ghost predicate WaitInv(f: Fields, running: bool, id: TaskId, w: WorkerId) {
    && w < |f.workers| && f.workers[w].task == id
    && (running ==> id in f.inflight && f.inflight[id] == w)
    && (forall v :: Live(f.workers, v) && f.workers[v].task == id ==> v == w)
    && (Live(f.workers, w) ==> f.workers[w].cancelling || f.workers[w].phase.Notifying?)
    && (Live(f.workers, w) && f.workers[w].phase.Executing? ==> id in f.cancelRequested)
  }

  /** What a canceller was told is what the store still says. */
  ghost predicate CallerInv(s: State, caller: Caller) {
    match caller
    case Waiting(id, w) => WaitInv(s.f, Running(s.loop), id, w)
    case Returned(id, result) =>
      result.Some? ==> id in s.f.store && Terminal(result.value.status)
                       && s.f.store[id].status == result.value.status
    case Gone => true
  }

  ghost predicate FinalInv(s: State) {
    && PhaseInv(s.f)
    && (s.loop.Listed? ==> forall id :: id in s.loop.pending ==>
          id in s.f.store && s.f.store[id].status == PENDING)
    && (forall c :: 0 <= c < |s.callers| ==> CallerInv(s, s.callers[c]))
  }

  lemma {:induction false} SpawnAllPhases(f: Fields, pending: seq<TaskId>, slots: nat)
    requires PhaseInv(f)
    requires forall id :: id in pending ==> id in f.store && f.store[id].status == PENDING
    ensures PhaseInv(SpawnAll(f, pending, slots))
    decreases |pending|
  {
    if pending != [] && slots != 0 {
      assert pending[0] in pending;
      if Spawnable(f, pending[0]) {
        var f1 := SpawnOne(f, pending[0]);
        forall w | Live(f1.workers, w) && w < |f.workers| ensures Live(f.workers, w) {}
        SpawnAllPhases(f1, pending[1..], slots - 1);
      } else {
        SpawnAllPhases(f, pending[1..], slots);
      }
    }
  }

  lemma {:induction false} SpawnAllWaits(f: Fields, pending: seq<TaskId>, slots: nat, id: TaskId, w: WorkerId)
    requires WaitInv(f, true, id, w)
    ensures WaitInv(SpawnAll(f, pending, slots), true, id, w)
    decreases |pending|
  {
    if pending != [] && slots != 0 {
      if Spawnable(f, pending[0]) {
        var f1 := SpawnOne(f, pending[0]);
        forall v | Live(f1.workers, v) && v < |f.workers| ensures Live(f.workers, v) {}
        SpawnAllWaits(f1, pending[1..], slots - 1, id, w);
      } else {
        SpawnAllWaits(f, pending[1..], slots, id, w);
      }
    }
  }

  lemma SpawnIsFinal(s: State)
    requires Inv(s) && FinalInv(s) && s.loop.Listed?
    ensures FinalInv(Step(s, Spawn))
  {
    var s' := Step(s, Spawn);
    SpawnAllKeeps(s.f, s.loop.pending, s.loop.slots, s.started);
    SpawnAllPhases(s.f, s.loop.pending, s.loop.slots);
    forall c | 0 <= c < |s'.callers| ensures CallerInv(s', s'.callers[c]) {
      assert CallerInv(s, s.callers[c]);
      if s.callers[c].Waiting? {
        SpawnAllWaits(s.f, s.loop.pending, s.loop.slots, s.callers[c].id, s.callers[c].worker);
      }
    }
  }

  lemma ReapIsFinal(s: State)
    requires Inv(s) && FinalInv(s) && s.loop.Top? && !ResumeDue(s)
    ensures FinalInv(Step(s, Reap))
  {
    var s' := Step(s, Reap);
    forall c | 0 <= c < |s'.callers| ensures CallerInv(s', s'.callers[c]) {
      assert CallerInv(s, s.callers[c]);
    }
  }

  /**
   * Worker `w` moves on, possibly writing its own record, and starts executing only if it was not
   * cancelled; the other workers, the other records and the table stay as they are.
   */
  ghost predicate Moves(f: Fields, f': Fields, w: WorkerId) {
    && Live(f.workers, w) && |f'.workers| == |f.workers|
    && f'.workers == f.workers[w := f'.workers[w]]
    && f'.workers[w].task == f.workers[w].task && !f'.workers[w].phase.Scheduled?
    && f'.inflight == f.inflight
    && (forall id :: id in f.store && id != f.workers[w].task ==> id in f'.store && f'.store[id] == f.store[id])
    && f'.store.Keys == f.store.Keys
    && (forall id :: id in f.cancelRequested && id != f.workers[w].task ==> id in f'.cancelRequested)
    && (f'.workers[w].phase.Executing? ==>
          f.workers[w].phase.Scheduled? && !f.workers[w].cancelling
          && f.workers[w].task in f'.store && f'.store[f.workers[w].task].status == RUNNING)
    && (f.workers[w].phase.Notifying? ==> f'.store == f.store)
  }

  lemma MoveKeepsCaller(s: State, f': Fields, w: WorkerId, caller: Caller)
    requires Inv(s) && FinalInv(s) && Moves(s.f, f', w) && CallerInv(s, caller)
    ensures CallerInv(s.(f := f'), caller)
  {
    if caller.Waiting? {
      forall v | Live(f'.workers, v) ensures Live(s.f.workers, v) {}
    }
  }

  lemma MoveIsFinal(s: State, f': Fields, w: WorkerId)
    requires Inv(s) && FinalInv(s) && !s.loop.Listed? && Moves(s.f, f', w)
    ensures FinalInv(s.(f := f'))
  {
    forall v | Live(f'.workers, v) && v != w
      ensures Live(s.f.workers, v) && f'.workers[v].task != s.f.workers[w].task {}
    forall c | 0 <= c < |s.callers| ensures CallerInv(s.(f := f'), s.callers[c]) {
      MoveKeepsCaller(s, f', w, s.callers[c]);
    }
  }

  lemma BeginMoves(f: Fields, w: WorkerId)
    requires TableInv(f) && Live(f.workers, w) && f.workers[w].phase.Scheduled?
    ensures Moves(f, Begun(f, w), w)
  {}

  lemma EndMoves(f: Fields, w: WorkerId, ok: bool)
    requires TableInv(f) && Live(f.workers, w) && !f.workers[w].phase.Scheduled?
    ensures f.workers[w].phase.Executing? ==> Moves(f, Finished(f, w, ok), w)
    ensures Moves(f, Cancelled(f, w), w)
    ensures f.workers[w].phase.Notifying? ==> Moves(f, SetPhase(f, w, Ended), w)
  {}

  lemma WorkerMoves(s: State, e: Event)
    requires Inv(s) && StepWorker.requires(s, e) && StepWorker(s, e).f != s.f
    ensures Moves(s.f, StepWorker(s, e).f, e.w)
  {
    if e.WorkerBegins? {
      BeginMoves(s.f, e.w);
    } else {
      OnlyFields(s, e);
      EndMoves(s.f, e.w, e.BackendEnds? && e.outcome.Succeeds?);
    }
  }

  lemma WorkerIsFinal(s: State, e: Event)
    requires Inv(s) && FinalInv(s) && !s.loop.Listed?
    requires e.WorkerBegins? || e.BackendEnds? || e.CancelLands? || e.CallbackEnds?
    ensures FinalInv(StepWorker(s, e))
  {
    var s' := StepWorker(s, e);
    if s'.f != s.f {
      WorkerMoves(s, e);
      MoveIsFinal(s, s'.f, e.w);
      assert forall c :: 0 <= c < |s'.callers| ==> (CallerInv(s', s'.callers[c]) <==>
                                                    CallerInv(s.(f := s'.f), s.callers[c]));
    }
  }

  /** Settling a record nobody live works on disturbs nobody. */
  lemma SettleIsFinal(s: State, id: TaskId, cancelRequested: set<TaskId>)
    requires Inv(s) && FinalInv(s) && !s.loop.Listed?
    requires forall v :: Live(s.f.workers, v) ==> s.f.workers[v].task != id
    requires s.f.cancelRequested - {id} <= cancelRequested
    ensures var f' := s.f.(store := Settled(s.f.store, id), cancelRequested := cancelRequested);
            FinalInv(s.(f := f'))
  {
    var f' := s.f.(store := Settled(s.f.store, id), cancelRequested := cancelRequested);
    forall c | 0 <= c < |s.callers| ensures CallerInv(s.(f := f'), s.callers[c]) {
      assert CallerInv(s, s.callers[c]);
    }
  }

  function PutCaller(s: State, c: nat, caller: Caller): State
    requires c <= |s.callers|
  {
    s.(callers := if c == |s.callers| then s.callers + [caller] else s.callers[c := caller])
  }

  lemma PutCallerIsFinal(s: State, c: nat, caller: Caller)
    requires c <= |s.callers| && FinalInv(s) && CallerInv(s, caller)
    ensures FinalInv(PutCaller(s, c, caller))
  {
    var s' := PutCaller(s, c, caller);
    forall i | 0 <= i < |s'.callers| ensures CallerInv(s', s'.callers[i]) {
      if i != c {
        assert CallerInv(s, s.callers[i]);
      }
    }
  }

  lemma RequestIsFinal(s: State, id: TaskId, w: WorkerId)
    requires Inv(s) && FinalInv(s) && !s.loop.Listed? && Live(s.f.workers, w)
    requires s.f.workers[w].task == id && id in s.f.inflight && s.f.inflight[id] == w
    ensures var f' := Cancel(s.f.(cancelRequested := s.f.cancelRequested + {id}), w);
            FinalInv(s.(f := f')) && WaitInv(f', Running(s.loop), id, w)
  {
    var f' := Cancel(s.f.(cancelRequested := s.f.cancelRequested + {id}), w);
    forall v ensures Live(f'.workers, v) <==> Live(s.f.workers, v) {}
    forall c | 0 <= c < |s.callers| ensures CallerInv(s.(f := f'), s.callers[c]) {
      assert CallerInv(s, s.callers[c]);
    }
  }

  lemma CancelCallIsFinal(s: State, id: TaskId, scope: Option<nat>)
    requires Inv(s) && FinalInv(s) && !s.loop.Listed? && !s.loop.Draining?
    ensures FinalInv(StepCancelCall(s, id, scope))
  {
    var s' := StepCancelCall(s, id, scope);
    var found := Find(s.f.store, id, scope);
    var caller := s'.callers[|s.callers|];
    if found.None? || Terminal(found.value.status) {
      PutCallerIsFinal(s, |s.callers|, caller);
    } else if id in s.f.inflight && Live(s.f.workers, s.f.inflight[id]) {
      RequestIsFinal(s, id, s.f.inflight[id]);
      PutCallerIsFinal(s.(f := s'.f), |s.callers|, caller);
    } else {
      forall v | Live(s.f.workers, v) ensures s.f.workers[v].task != id {}
      SettleIsFinal(s, id, s.f.cancelRequested);
      PutCallerIsFinal(s.(f := s'.f), |s.callers|, caller);
    }
  }

  lemma CancelResumesIsFinal(s: State, c: nat)
    requires Inv(s) && FinalInv(s) && !s.loop.Listed?
    ensures FinalInv(StepCancelResumes(s, c))
  {
    var s' := StepCancelResumes(s, c);
    if s' != s && c < |s.callers| && s.callers[c].Waiting? && !Live(s.f.workers, s.callers[c].worker) {
      var id := s.callers[c].id;
      assert CallerInv(s, s.callers[c]);
      SettleIsFinal(s, id, s.f.cancelRequested - {id});
      PutCallerIsFinal(s.(f := s'.f), c, s'.callers[c]);
    }
  }

  lemma EnqueueIsFinal(s: State, e: Event)
    requires Inv(s) && FinalInv(s) && Orderly(s, e) && e.Enqueue?
    ensures FinalInv(Step(s, e))
  {
    var s' := Step(s, e);
    forall c | 0 <= c < |s'.callers| ensures CallerInv(s', s'.callers[c]) {
      assert CallerInv(s, s.callers[c]);
    }
  }

  lemma StartIsFinal(s: State)
    requires Inv(s) && FinalInv(s) && Orderly(s, Start)
    ensures FinalInv(Step(s, Start))
  {
    var s' := Step(s, Start);
    forall c | 0 <= c < |s'.callers| ensures CallerInv(s', s'.callers[c]) {
      assert CallerInv(s, s.callers[c]);
    }
  }

  /** A change that leaves every live worker alone, or leaves none. */
  lemma LifecycleIsFinal(s: State, e: Event)
    requires Inv(s) && FinalInv(s) && Orderly(s, e)
    requires e.ListPending? || e.StopSeen? || e.DrainEnds? || e.ShutdownCancels?
    ensures FinalInv(Step(s, e))
  {
    var s' := Step(s, e);
    forall v ensures Live(s'.f.workers, v) <==> Live(s.f.workers, v) {}
    forall c | 0 <= c < |s'.callers| ensures CallerInv(s', s'.callers[c]) {
      assert CallerInv(s, s.callers[c]);
    }
  }

  lemma CrashIsFinal(s: State)
    requires Inv(s) && FinalInv(s)
    ensures FinalInv(Step(s, Crash))
  {
    var s' := Step(s, Crash);
    forall v ensures !Live(s'.f.workers, v) {}
    forall c | 0 <= c < |s'.callers| ensures CallerInv(s', s'.callers[c]) {
      assert CallerInv(s, s.callers[c]);
    }
  }

  lemma StepIsFinal(s: State, e: Event)
    requires Inv(s) && FinalInv(s) && Orderly(s, e)
    ensures FinalInv(Step(s, e))
  {
    match e
    case Enqueue(_, _, _, _) => EnqueueIsFinal(s, e);
    case Start => StartIsFinal(s);
    case Reap => if s.loop.Top? { ReapIsFinal(s); }
    case Spawn => if s.loop.Listed? { SpawnIsFinal(s); }
    case WorkerBegins(_) => WorkerIsFinal(s, e);
    case BackendEnds(_, _) => WorkerIsFinal(s, e);
    case CancelLands(_) => WorkerIsFinal(s, e);
    case CallbackEnds(_) => WorkerIsFinal(s, e);
    case CancelCall(id, scope) => CancelCallIsFinal(s, id, scope);
    case CancelResumes(c) => CancelResumesIsFinal(s, c);
    case Crash => CrashIsFinal(s);
    case _ => LifecycleIsFinal(s, e);
  }

  lemma {:induction false} OrderlyIsFinal(s: State, events: seq<Event>)
    requires Inv(s) && FinalInv(s) && OrderlyRun(s, events)
    ensures Inv(Run(s, events)) && FinalInv(Run(s, events))
    decreases |events|
  {
    if events != [] {
      StepIsFinal(s, events[0]);
      StepKeepsInv(s, events[0]);
      OrderlyIsFinal(Step(s, events[0]), events[1..]);
    }
  }

  lemma InitialIsFinal(max: nat)
    ensures Inv(Initial(max)) && FinalInv(Initial(max))
  {
    Reachable(max, []);
  }

  /** On an orderly run every answer of `cancel_task` is still what the store says. */
  lemma {:induction false} CancelAnswerStays(max: nat, events: seq<Event>, c: nat)
    requires OrderlyRun(Initial(max), events) && c < |Run(Initial(max), events).callers|
    ensures var s := Run(Initial(max), events);
            match s.callers[c]
            case Returned(id, Some(record)) => id in s.f.store && s.f.store[id].status == record.status
            case _ => true
  {
    InitialIsFinal(max);
    OrderlyIsFinal(Initial(max), events);
    assert CallerInv(Run(Initial(max), events), Run(Initial(max), events).callers[c]);
  }

  /** The canceller resumes, or one step of its worker ends that worker. */
  ghost predicate CanGoOn(s: State, c: nat)
    requires c < |s.callers| && s.callers[c].Waiting?
  {
    var Waiting(id, w) := s.callers[c];
    if !Live(s.f.workers, w) then StepCancelResumes(s, c).callers[c].Returned?
    else match s.f.workers[w].phase
      case Scheduled => !Live(StepWorker(s, WorkerBegins(w)).f.workers, w)
      case Executing =>
        && !Live(StepWorker(s, CancelLands(w)).f.workers, w)
        && id in s.f.store && StepWorker(s, CancelLands(w)).f.store[id].status == CANCELLED
      case Notifying => !Live(StepWorker(s, CallbackEnds(w)).f.workers, w)
      case Ended => true
  }

  /**
   * On an orderly run a waiting `cancel_task` can always go on: its worker has ended, or one more
   * step of that worker ends it; and stopping a running backend records CANCELLED.
   */
  lemma {:induction false} CancelNeverHangs(max: nat, events: seq<Event>, c: nat)
    requires OrderlyRun(Initial(max), events) && c < |Run(Initial(max), events).callers|
    requires Run(Initial(max), events).callers[c].Waiting?
    ensures CanGoOn(Run(Initial(max), events), c)
  {
    InitialIsFinal(max);
    OrderlyIsFinal(Initial(max), events);
    assert CallerInv(Run(Initial(max), events), Run(Initial(max), events).callers[c]);
  }

  // ---------------------------------------------------------------- each condition is needed

  lemma {:induction false} RunAppend(s: State, events: seq<Event>, e: Event)
    ensures Run(s, events + [e]) == Step(Run(s, events), e)
    decreases |events|
  {
    if events == [] {
      assert (events + [e])[1..] == [];
      assert Run(Step(s, e), []) == Step(s, e);
    } else {
      assert (events + [e])[1..] == events[1..] + [e];
      RunAppend(Step(s, events[0]), events[1..], e);
    }
  }

  lemma {:induction false} RunTo(s: State, events: seq<Event>, k: nat)
    requires k < |events|
    ensures Run(s, events[..k + 1]) == Step(Run(s, events[..k]), events[k])
  {
    assert events[..k + 1] == events[..k] + [events[k]];
    RunAppend(s, events[..k], events[k]);
  }

  const ONE_TASK: seq<Event> := [Enqueue(0, true, true, 0), Start, Reap, ListPending([0]), Spawn]

  const THE_TASK: Record := Record(PENDING, true, true, 0)

  /** After the first four events of `ONE_TASK`: the task is listed, no worker exists. */
  function OneListed(max: nat): State {
    State(Fields(map[0 := THE_TASK], map[], {}, []), [], Listed([0], max), max, [])
  }

  /** After `ONE_TASK`: a worker that has not run its first line. */
  function OneScheduled(max: nat): State {
    State(Fields(map[0 := THE_TASK], map[0 := 0], {}, [Worker(0, Scheduled, false)]), [], Top, max, [])
  }

  lemma RunOneTask(max: nat)
    requires max >= 1
    ensures Run(Initial(max), ONE_TASK[..4]) == OneListed(max)
    ensures Run(Initial(max), ONE_TASK) == OneScheduled(max)
  {
    RunTo(Initial(max), ONE_TASK, 0);
    RunTo(Initial(max), ONE_TASK, 1);
    RunTo(Initial(max), ONE_TASK, 2);
    RunTo(Initial(max), ONE_TASK, 3);
    var s1 := Step(Initial(max), ONE_TASK[0]);
    var s2 := Step(s1, ONE_TASK[1]);
    assert s2.f.store == s1.f.store;
    assert Step(s2, ONE_TASK[2]).f == s2.f;
    SpawnTheTask(max);
  }

  lemma SpawnTheTask(max: nat)
    requires max >= 1
    requires Run(Initial(max), ONE_TASK[..4]) == OneListed(max)
    ensures Run(Initial(max), ONE_TASK) == OneScheduled(max)
  {
    RunTo(Initial(max), ONE_TASK, 4);
    assert ONE_TASK[..5] == ONE_TASK;
    assert SpawnAll(OneListed(max).f, [0], max) == SpawnOne(OneListed(max).f, 0);
    assert Step(OneListed(max), Spawn).f == OneScheduled(max).f;
  }

  /** `cancel_task` answered CANCELLED, and the store says `status`. */
  predicate AnsweredCancelledBut(s: State, status: Status) {
    && s.callers == [Returned(0, Some(THE_TASK.(status := CANCELLED)))]
    && s.f.store == map[0 := THE_TASK.(status := status)]
  }

  const REAP_FIRST: seq<Event> := [CancelCall(0, None), WorkerBegins(0), Reap]

  /** After `REAP_FIRST`: the cancelled worker is forgotten, its canceller has not resumed. */
  function ReapedTooEarly(max: nat): State {
    State(Fields(map[0 := THE_TASK], map[], {0}, [Worker(0, Ended, false)]),
          [Waiting(0, 0)], Swept(max), max, [])
  }

  lemma {:induction false} RunThree(s: State, events: seq<Event>)
    requires |events| == 3
    ensures Run(s, events) == Step(Step(Step(s, events[0]), events[1]), events[2])
  {
    RunTo(s, events, 0);
    RunTo(s, events, 1);
    RunTo(s, events, 2);
    assert events[..3] == events;
  }

  function CancelledScheduled(max: nat): State {
    State(Fields(map[0 := THE_TASK], map[0 := 0], {0}, [Worker(0, Scheduled, true)]), [Waiting(0, 0)], Top, max, [])
  }

  function CancelledEnded(max: nat): State {
    State(Fields(map[0 := THE_TASK], map[0 := 0], {0}, [Worker(0, Ended, false)]), [Waiting(0, 0)], Top, max, [])
  }

  lemma CancelsScheduled(max: nat)
    ensures Step(OneScheduled(max), CancelCall(0, None)) == CancelledScheduled(max)
  {}

  lemma EndsScheduled(max: nat)
    ensures Step(CancelledScheduled(max), WorkerBegins(0)) == CancelledEnded(max)
  {
    assert Begun(CancelledScheduled(max).f, 0).workers == [Worker(0, Ended, false)];
  }

  lemma ReapsEnded(max: nat)
    requires max >= 1
    ensures Step(CancelledEnded(max), Reap) == ReapedTooEarly(max)
  {
    assert Reaped(CancelledEnded(max).f).inflight == map[];
  }

  lemma RunReapFirst(max: nat)
    requires max >= 1
    ensures Run(OneScheduled(max), REAP_FIRST) == ReapedTooEarly(max)
  {
    RunThree(OneScheduled(max), REAP_FIRST);
    CancelsScheduled(max);
    EndsScheduled(max);
    ReapsEnded(max);
  }

  const RUN_AGAIN: seq<Event> := [ListPending([0]), Spawn, CancelResumes(0), WorkerBegins(1)]

  lemma RunRunAgain(max: nat)
    requires max >= 1
    ensures var s := Run(ReapedTooEarly(max), RUN_AGAIN);
            AnsweredCancelledBut(s, RUNNING) && s.started == [0]
  {
    var s0 := ReapedTooEarly(max);
    RunTo(s0, RUN_AGAIN, 0);
    RunTo(s0, RUN_AGAIN, 1);
    RunTo(s0, RUN_AGAIN, 2);
    RunTo(s0, RUN_AGAIN, 3);
    assert RUN_AGAIN[..4] == RUN_AGAIN;
    var s1 := Step(s0, RUN_AGAIN[0]);
    assert SpawnAll(s1.f, [0], max) == SpawnOne(s1.f, 0);
    var s2 := Step(s1, RUN_AGAIN[1]);
    assert s2.f.workers == [Worker(0, Ended, false), Worker(0, Scheduled, false)];
    var s3 := Step(s2, RUN_AGAIN[2]);
    assert s3.f.store == map[0 := THE_TASK.(status := CANCELLED)];
  }

  /**
   * The loop reaps between the end of a cancelled worker and the resumption of its canceller:
   * `cancel_task` answers CANCELLED and the backend runs all the same.
   */
  lemma ReapBeforeResumeRunsCancelledTask(max: nat)
    requires max >= 1
    ensures var s := Run(Run(Run(Initial(max), ONE_TASK), REAP_FIRST), RUN_AGAIN);
            AnsweredCancelledBut(s, RUNNING) && s.started == [0]
  {
    RunOneTask(max);
    RunReapFirst(max);
    RunRunAgain(max);
  }

  const CANCEL_LISTED: seq<Event> := [CancelCall(0, None), Spawn, WorkerBegins(0)]

  /** A cancellation between the listing and the spawning is overtaken by the stale list. */
  lemma StaleListingRunsCancelledTask(max: nat)
    requires max >= 1
    ensures var s := Run(Run(Initial(max), ONE_TASK[..4]), CANCEL_LISTED);
            AnsweredCancelledBut(s, RUNNING) && s.started == [0]
  {
    RunOneTask(max);
    RunThree(OneListed(max), CANCEL_LISTED);
    CancelsListed(max);
    SpawnsCancelled(max);
    BeginsCancelled(max);
  }

  function CancelledListed(max: nat): State {
    State(Fields(map[0 := THE_TASK.(status := CANCELLED)], map[], {}, []),
          [Returned(0, Some(THE_TASK.(status := CANCELLED)))], Listed([0], max), max, [])
  }

  function CancelledSpawned(max: nat): State {
    State(Fields(map[0 := THE_TASK.(status := CANCELLED)], map[0 := 0], {}, [Worker(0, Scheduled, false)]),
          [Returned(0, Some(THE_TASK.(status := CANCELLED)))], Top, max, [])
  }

  lemma CancelsListed(max: nat)
    ensures Step(OneListed(max), CancelCall(0, None)) == CancelledListed(max)
  {
    assert Settled(OneListed(max).f.store, 0) == CancelledListed(max).f.store;
  }

  lemma SpawnsCancelled(max: nat)
    requires max >= 1
    ensures Step(CancelledListed(max), Spawn) == CancelledSpawned(max)
  {
    var f := CancelledListed(max).f;
    assert SpawnAll(f, [0], max) == SpawnOne(f, 0);
  }

  lemma BeginsCancelled(max: nat)
    ensures var s := Step(CancelledSpawned(max), WorkerBegins(0));
            AnsweredCancelledBut(s, RUNNING) && s.started == [0]
  {}

  const STOP_RUNNING: seq<Event> := [WorkerBegins(0), StopSeen]
  const CANCEL_DRAINED: seq<Event> := [CancelCall(0, None), BackendEnds(0, Succeeds)]

  /** After `STOP_RUNNING`: the backend runs, the table is cleared. */
  function DrainingOne(max: nat): State {
    State(Fields(map[0 := THE_TASK.(status := RUNNING)], map[], {}, [Worker(0, Executing, false)]),
          [], Draining, max, [0])
  }

  lemma RunStopRunning(max: nat)
    ensures Run(OneScheduled(max), STOP_RUNNING) == DrainingOne(max)
  {
    RunTo(OneScheduled(max), STOP_RUNNING, 0);
    RunTo(OneScheduled(max), STOP_RUNNING, 1);
    assert STOP_RUNNING[..2] == STOP_RUNNING;
    var s1 := Step(OneScheduled(max), STOP_RUNNING[0]);
    assert s1.f.workers == [Worker(0, Executing, false)];
  }

  lemma RunCancelDrained(max: nat)
    ensures AnsweredCancelledBut(Run(DrainingOne(max), CANCEL_DRAINED), COMPLETED)
  {
    RunTo(DrainingOne(max), CANCEL_DRAINED, 0);
    RunTo(DrainingOne(max), CANCEL_DRAINED, 1);
    assert CANCEL_DRAINED[..2] == CANCEL_DRAINED;
    var s1 := Step(DrainingOne(max), CANCEL_DRAINED[0]);
    assert s1.f.store == map[0 := THE_TASK.(status := CANCELLED)];
  }

  /** A cancellation while the loop drains does not find the worker, and COMPLETED wins. */
  lemma DrainLosesCancellation(max: nat)
    requires max >= 1
    ensures AnsweredCancelledBut(
              Run(Run(Run(Initial(max), ONE_TASK), STOP_RUNNING), CANCEL_DRAINED), COMPLETED)
  {
    RunOneTask(max);
    RunStopRunning(max);
    RunCancelDrained(max);
  }
}
