/**
 * What the coordinator writes: which event gives a task which status, and what spawning, cancelling,
 * starting and crashing do to it.
 */
module CoordinatorOutcomes {
  import opened Options
  import opened Coordinator
  import opened CoordinatorRuns
  import CoordinatorSafety

  predicate WorksOn(f: Fields, w: WorkerId, id: TaskId, phase: Phase) {
    w < |f.workers| && f.workers[w].task == id && f.workers[w].phase == phase
  }

  /** Does this event, in this state, give task `id` this status? */
  predicate Gives(s: State, e: Event, id: TaskId, status: Status)
    requires id in s.f.store
  {
    match status
    case RUNNING =>
      e.WorkerBegins? && WorksOn(s.f, e.w, id, Scheduled) && !s.f.workers[e.w].cancelling && s.f.store[id].backendKnown
    case COMPLETED => e.BackendEnds? && e.outcome == Succeeds && WorksOn(s.f, e.w, id, Executing)
    case FAILED =>
      || (e.BackendEnds? && e.outcome != Succeeds && WorksOn(s.f, e.w, id, Executing))
      || (e.WorkerBegins? && WorksOn(s.f, e.w, id, Scheduled) && !s.f.workers[e.w].cancelling
          && !s.f.store[id].backendKnown)
      || (e.CancelLands? && WorksOn(s.f, e.w, id, Executing) && s.f.workers[e.w].cancelling
          && id !in s.f.cancelRequested)
      || (e.Start? && s.loop.Off? && s.f.store[id].status == RUNNING && s.f.store[id].delegation)
    case CANCELLED =>
      || (e.CancelLands? && WorksOn(s.f, e.w, id, Executing) && s.f.workers[e.w].cancelling
          && id in s.f.cancelRequested)
      || (e.CancelCall? && e.id == id && !Terminal(s.f.store[id].status)
          && (e.scope.None? || e.scope.value == s.f.store[id].session)
          && !(id in s.f.inflight && Live(s.f.workers, s.f.inflight[id])))
      || (e.CancelResumes? && e.c < |s.callers| && s.callers[e.c].Waiting? && s.callers[e.c].id == id
          && !Live(s.f.workers, s.callers[e.c].worker) && !Terminal(s.f.store[id].status))
    case PENDING => false
    case EXPIRED => false
  }

  /** Some event gives the task a status. */
  predicate Touches(s: State, e: Event, id: TaskId)
    requires id in s.f.store
  {
    || Gives(s, e, id, RUNNING) || Gives(s, e, id, COMPLETED) || Gives(s, e, id, FAILED) || Gives(s, e, id, CANCELLED)
  }

  lemma WorkerGives(s: State, e: Event, id: TaskId)
    requires e.WorkerBegins? || e.BackendEnds? || e.CancelLands? || e.CallbackEnds?
    requires id in s.f.store && id in Step(s, e).f.store
    ensures forall status :: Gives(s, e, id, status) ==> Step(s, e).f.store[id] == s.f.store[id].(status := status)
    ensures !Touches(s, e, id) ==> Step(s, e).f.store[id] == s.f.store[id]
  {
    if e.w < |s.f.workers| {
      var worker := s.f.workers[e.w];
    }
  }

  lemma OtherGives(s: State, e: Event, id: TaskId)
    requires !(e.WorkerBegins? || e.BackendEnds? || e.CancelLands? || e.CallbackEnds?)
    requires id in s.f.store && id in Step(s, e).f.store
    ensures forall status :: Gives(s, e, id, status) ==> Step(s, e).f.store[id] == s.f.store[id].(status := status)
    ensures !Touches(s, e, id) ==> Step(s, e).f.store[id] == s.f.store[id]
  {
    if e.Spawn? && s.loop.Listed? {
      SpawnLeavesStore(s.f, s.loop.pending, s.loop.slots);
    }
  }

  lemma {:induction false} SpawnLeavesStore(f: Fields, pending: seq<TaskId>, slots: nat)
    ensures SpawnAll(f, pending, slots).store == f.store
    decreases |pending|
  {
    if pending != [] && slots != 0 {
      if Spawnable(f, pending[0]) {
        SpawnLeavesStore(SpawnOne(f, pending[0]), pending[1..], slots - 1);
      } else {
        SpawnLeavesStore(f, pending[1..], slots);
      }
    }
  }

  lemma StepLosesNoTask(s: State, e: Event)
    ensures forall id :: id in s.f.store ==> id in Step(s, e).f.store
    ensures forall id :: id in Step(s, e).f.store && id !in s.f.store ==>
              e.Enqueue? && e.id == id && Step(s, e).f.store[id] == Record(PENDING, e.delegation, e.backendKnown, e.session)
  {
    if e.Spawn? && s.loop.Listed? {
      SpawnLeavesStore(s.f, s.loop.pending, s.loop.slots);
    }
  }

  /** A step writes exactly the statuses the table gives, and nothing else of a record. */
  lemma StatusTable(s: State, e: Event, id: TaskId)
    requires id in s.f.store
    ensures id in Step(s, e).f.store
    ensures forall status :: Gives(s, e, id, status) ==> Step(s, e).f.store[id] == s.f.store[id].(status := status)
    ensures !Touches(s, e, id) ==> Step(s, e).f.store[id] == s.f.store[id]
  {
    StepLosesNoTask(s, e);
    if e.WorkerBegins? || e.BackendEnds? || e.CancelLands? || e.CallbackEnds? {
      WorkerGives(s, e, id);
    } else {
      OtherGives(s, e, id);
    }
  }

  /** Settled is everything but waiting and running. */
  lemma TerminalIff(status: Status)
    ensures Terminal(status) <==> status != PENDING && status != RUNNING
  {}

  // ---------------------------------------------------------------- over runs

  /** The backend of task `id` succeeded at event `k`. */
  ghost predicate SucceededAt(max: nat, events: seq<Event>, id: TaskId, k: int) {
    0 <= k < |events| && events[k].BackendEnds? && events[k].outcome == Succeeds
    && WorksOn(Run(Initial(max), events[..k]).f, events[k].w, id, Executing)
  }

  /** A task is recorded COMPLETED only if its backend ran and succeeded. */
  lemma {:induction false} CompletedMeansSucceeded(max: nat, events: seq<Event>, id: TaskId)
    requires id in Run(Initial(max), events).f.store
    requires Run(Initial(max), events).f.store[id].status == COMPLETED
    ensures exists k :: SucceededAt(max, events, id, k)
  {
    if events != [] {
      var (front, e) := (events[..|events| - 1], events[|events| - 1]);
      var s := Run(Initial(max), front);
      assert events == front + [e];
      CoordinatorSafety.RunAppend(Initial(max), front, e);
      StepLosesNoTask(s, e);
      StatusTable(s, e, id);
      if s.f.store[id].status == COMPLETED {
        CompletedMeansSucceeded(max, front, id);
        var k :| SucceededAt(max, front, id, k);
        assert events[..k] == front[..k];
        assert SucceededAt(max, events, id, k);
      } else {
        assert SucceededAt(max, events, id, |events| - 1);
      }
    }
  }

  /** After a start no delegation is RUNNING: those of the previous process have FAILED. */
  lemma StartRecovers(s: State)
    requires s.loop.Off?
    ensures var s' := Step(s, Start);
            && s'.loop.Top? && s'.started == s.started && s'.f.store.Keys == s.f.store.Keys
            && (forall id :: id in s'.f.store && s'.f.store[id].delegation ==> s'.f.store[id].status != RUNNING)
            && (forall id :: id in s.f.store && s.f.store[id].delegation && s.f.store[id].status == RUNNING ==>
                  s'.f.store[id] == s.f.store[id].(status := FAILED))
            && (forall id :: id in s.f.store && !(s.f.store[id].delegation && s.f.store[id].status == RUNNING) ==>
                  s'.f.store[id] == s.f.store[id])
  {}

  /** A crash ends all workers and forgets the table, the requests and who waited; the store stays. */
  lemma CrashForgets(s: State)
    ensures var s' := Step(s, Crash);
            && s'.f.store == s.f.store && s'.f.inflight == map[] && s'.f.cancelRequested == {} && s'.loop.Off?
            && |s'.f.workers| == |s.f.workers| && (forall w :: !Live(s'.f.workers, w))
            && |s'.callers| == |s.callers| && (forall c :: 0 <= c < |s'.callers| ==> !s'.callers[c].Waiting?)
  {}

  // ---------------------------------------------------------------- what workers and callers do

  /** A worker that begins starts its backend exactly when the table of statuses says RUNNING. */
  lemma BackendStartsIff(s: State, w: WorkerId)
    requires w < |s.f.workers| && s.f.workers[w].phase.Scheduled? && s.f.workers[w].task in s.f.store
    ensures var (id, s') := (s.f.workers[w].task, Step(s, WorkerBegins(w)));
            && |s'.f.workers| == |s.f.workers|
            && (if Gives(s, WorkerBegins(w), id, RUNNING)
                then s'.started == s.started + [id] && s'.f.workers[w].phase == Executing
                else s'.started == s.started && s'.f.workers[w].phase != Executing)
            && (s.f.workers[w].cancelling ==> s'.f.workers[w].phase == Ended)
            && (!s.f.workers[w].cancelling && !s.f.store[id].backendKnown ==> s'.f.workers[w].phase == Notifying)
  {}

  /** An outcome is recorded before the callback; after the callback the worker has ended. */
  lemma OutcomeThenCallback(s: State, w: WorkerId, outcome: Outcome)
    requires w < |s.f.workers|
    ensures s.f.workers[w].phase.Executing? ==>
              var s' := Step(s, BackendEnds(w, outcome));
              |s'.f.workers| == |s.f.workers| && s'.f.workers[w].phase == Notifying && s'.f.inflight == s.f.inflight
    ensures s.f.workers[w].phase.Notifying? ==>
              |Step(s, CallbackEnds(w)).f.workers| == |s.f.workers| && Step(s, CallbackEnds(w)).f.workers[w].phase == Ended
    ensures s.f.workers[w].phase.Executing? && s.f.workers[w].cancelling ==>
              var s' := Step(s, CancelLands(w));
              && |s'.f.workers| == |s.f.workers| && s'.f.workers[w].phase == Ended
              && s'.f.cancelRequested == s.f.cancelRequested - {s.f.workers[w].task}
  {}

  /** `cancel_task`: no task, a settled one, a live worker to wait for, or a record to settle. */
  lemma CancelCallIs(s: State, id: TaskId, scope: Option<nat>)
    ensures var s' := Step(s, CancelCall(id, scope));
            var found := id in s.f.store && (scope.None? || scope.value == s.f.store[id].session);
            && |s'.callers| == |s.callers| + 1 && s'.callers[..|s.callers|] == s.callers
            && var mine := s'.callers[|s.callers|];
               if !found then mine == Returned(id, None)
               else if Terminal(s.f.store[id].status) then mine == Returned(id, Some(s.f.store[id]))
               else if id in s.f.inflight && Live(s.f.workers, s.f.inflight[id])
               then && mine == Waiting(id, s.f.inflight[id]) && id in s'.f.cancelRequested
                    && |s'.f.workers| == |s.f.workers| && s'.f.workers[s.f.inflight[id]].cancelling
               else mine == Returned(id, Some(s.f.store[id].(status := CANCELLED)))
  {}

  /** A canceller whose worker has ended returns what the store then says. */
  lemma CancelReturns(s: State, c: nat)
    requires c < |s.callers| && s.callers[c].Waiting? && !Live(s.f.workers, s.callers[c].worker)
    ensures var (id, s') := (s.callers[c].id, Step(s, CancelResumes(c)));
            && |s'.callers| == |s.callers| && id !in s'.f.cancelRequested
            && s'.callers[c] == Returned(id, if id !in s.f.store then None
                                             else if Terminal(s.f.store[id].status) then Some(s.f.store[id])
                                             else Some(s.f.store[id].(status := CANCELLED)))
  {}

  /** `stop()` that lost patience cancels every worker. */
  lemma ShutdownCancelsAll(s: State)
    requires s.loop.Draining?
    ensures var s' := Step(s, ShutdownCancels);
            && |s'.f.workers| == |s.f.workers| && s'.f.store == s.f.store
            && forall w :: 0 <= w < |s'.f.workers| ==> s'.f.workers[w] == s.f.workers[w].(cancelling := true)
  {}

  // ---------------------------------------------------------------- the polling loop

  /** Reaping forgets exactly the ended workers and leaves a slot for each entry below the limit. */
  lemma ReapIs(s: State)
    requires s.loop.Top? && |Step(s, Reap).f.inflight| <= s.max
    ensures var s' := Step(s, Reap);
            && (forall id :: id in s'.f.inflight <==> id in s.f.inflight && Live(s.f.workers, s.f.inflight[id]))
            && (forall id :: id in s'.f.inflight ==> s'.f.inflight[id] == s.f.inflight[id])
            && s'.f.workers == s.f.workers && s'.f.store == s.f.store
            && s'.loop == Swept(s.max - |s'.f.inflight|)
  {}

  predicate Listable(f: Fields, id: TaskId) {
    id in f.store && f.store[id].delegation
  }

  /**
   * Spawning gives workers to the listed delegations without one, first come first served: either all
   * of them have one afterwards, or all slots are used, and then by those listed before the others.
   */
  lemma {:induction false} SpawnsInOrder(f: Fields, pending: seq<TaskId>, slots: nat)
    ensures var f' := SpawnAll(f, pending, slots);
            exists k :: 0 <= k <= |pending|
              && (forall id :: id in f'.inflight <==> id in f.inflight || (id in pending[..k] && Listable(f, id)))
              && |f'.workers| - |f.workers| <= slots
              && (k < |pending| ==> |f'.workers| - |f.workers| == slots)
    decreases |pending|
  {
    var f' := SpawnAll(f, pending, slots);
    if pending == [] || slots == 0 {
      assert pending[..0] == [];
      assert forall id :: id in f'.inflight <==> id in f.inflight || (id in pending[..0] && Listable(f, id));
    } else {
      var g := if Spawnable(f, pending[0]) then SpawnOne(f, pending[0]) else f;
      var left := if Spawnable(f, pending[0]) then slots - 1 else slots;
      SpawnsInOrder(g, pending[1..], left);
      var k :| 0 <= k <= |pending[1..]|
        && (forall id :: id in f'.inflight <==> id in g.inflight || (id in pending[1..][..k] && Listable(g, id)))
        && |f'.workers| - |g.workers| <= left
        && (k < |pending[1..]| ==> |f'.workers| - |g.workers| == left);
      assert pending[..k + 1] == [pending[0]] + pending[1..][..k];
      assert forall id :: id in pending[..k + 1] <==> id == pending[0] || id in pending[1..][..k];
      assert forall id :: id in f'.inflight <==> id in f.inflight || (id in pending[..k + 1] && Listable(f, id));
    }
  }
}
