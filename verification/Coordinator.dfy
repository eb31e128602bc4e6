/**
 * The delegation coordinator (src/assistant/subagents/coordinator.py).
 *
 * A polling loop turns PENDING task records into workers, a worker runs its task's backend and
 * writes the outcome, `cancel_task` stops a worker and settles the record.  The class holds the
 * coordinator's fields together with the task store and the asyncio tasks it created; each method
 * is a stretch of source code that runs without suspending.  The functions on `Fields` specify the
 * methods, and module `CoordinatorRuns` interleaves them.
 */
module Coordinator {
  import opened Options

  type TaskId = nat
  type WorkerId = nat

  datatype Status = PENDING | RUNNING | COMPLETED | FAILED | CANCELLED | EXPIRED

  predicate Terminal(s: Status) {
    s in {COMPLETED, FAILED, CANCELLED, EXPIRED}
  }

  /** The part of a TaskRecord the coordinator looks at. */
  datatype Record = Record(status: Status, delegation: bool, backendKnown: bool, session: nat)

  datatype Phase =
    | Scheduled    // created, its first line has not run
    | Executing    // in backend.execute
    | Notifying    // in the completion callback; the outcome is stored
    | Ended

  /** An asyncio task of `_execute_task_guarded`; `cancelling`: cancel() was called on it. */
  datatype Worker = Worker(task: TaskId, phase: Phase, cancelling: bool)

  datatype Fields = Fields(
    store: map<TaskId, Record>,
    inflight: map<TaskId, WorkerId>,
    cancelRequested: set<TaskId>,
    workers: seq<Worker>)

  predicate Live(workers: seq<Worker>, w: int) {
    0 <= w < |workers| && !workers[w].phase.Ended?
  }

  // ---------------------------------------------------------------- specifications

  function SetStatus(store: map<TaskId, Record>, id: TaskId, s: Status): map<TaskId, Record> {
    if id in store then store[id := store[id].(status := s)] else store
  }

  /** `_reap_finished_inflight`: only workers that are not done stay. */
  function Reaped(f: Fields): Fields {
    f.(inflight := map id | id in f.inflight && Live(f.workers, f.inflight[id]) :: f.inflight[id])
  }

  function Slots(f: Fields, max: nat): nat {
    if max > |f.inflight| then max - |f.inflight| else 0
  }

  /** May the loop start a worker for the listed task `id`? */
  predicate Spawnable(f: Fields, id: TaskId) {
    id in f.store && f.store[id].delegation && id !in f.inflight
  }

  function SpawnOne(f: Fields, id: TaskId): Fields {
    f.(workers := f.workers + [Worker(id, Scheduled, false)], inflight := f.inflight[id := |f.workers|])
  }

  /** The `for task in pending` loop of `_worker_loop`. */
  function SpawnAll(f: Fields, pending: seq<TaskId>, slots: nat): Fields
    decreases |pending|
  {
    if pending == [] || slots == 0 then f
    else if !Spawnable(f, pending[0]) then SpawnAll(f, pending[1..], slots)
    else SpawnAll(SpawnOne(f, pending[0]), pending[1..], slots - 1)
  }

  function SetPhase(f: Fields, w: WorkerId, phase: Phase): Fields
    requires w < |f.workers|
  {
    f.(workers := f.workers[w := Worker(f.workers[w].task, phase, false)])
  }

  /** A worker's first stretch: up to `backend.execute`, or to the callback without a backend. */
  function Begun(f: Fields, w: WorkerId): Fields
    requires w < |f.workers|
  {
    var id := f.workers[w].task;
    if f.workers[w].cancelling || id !in f.store then SetPhase(f, w, Ended)
    else if !f.store[id].backendKnown then
      SetPhase(f.(store := SetStatus(f.store, id, FAILED)), w, Notifying)
    else SetPhase(f.(store := SetStatus(f.store, id, RUNNING)), w, Executing)
  }

  /** Does `Begun` start the backend? */
  predicate StartsBackend(f: Fields, w: WorkerId) {
    w < |f.workers| && Begun(f, w).workers[w].phase.Executing?
  }

  /** The backend returned (ok or not) or raised. */
  function Finished(f: Fields, w: WorkerId, ok: bool): Fields
    requires w < |f.workers|
  {
    var outcome := if ok then COMPLETED else FAILED;
    SetPhase(f.(store := SetStatus(f.store, f.workers[w].task, outcome)), w, Notifying)
  }

  /** A CancelledError reached the worker. */
  function Cancelled(f: Fields, w: WorkerId): Fields
    requires w < |f.workers|
  {
    var id := f.workers[w].task;
    if f.workers[w].phase.Executing? then
      SetPhase(f.(store := SetStatus(f.store, id, if id in f.cancelRequested then CANCELLED else FAILED),
                  cancelRequested := f.cancelRequested - {id}),
               w, Ended)
    else SetPhase(f, w, Ended)
  }

  function Cancel(f: Fields, w: WorkerId): Fields
    requires w < |f.workers|
  {
    f.(workers := f.workers[w := f.workers[w].(cancelling := true)])
  }

  /** The end of `cancel_task`: whatever happened, the record is terminal afterwards. */
  function Settled(store: map<TaskId, Record>, id: TaskId): map<TaskId, Record> {
    if id in store && !Terminal(store[id].status) then SetStatus(store, id, CANCELLED) else store
  }

  function Lookup(store: map<TaskId, Record>, id: TaskId): Option<Record> {
    if id in store then Some(store[id]) else None
  }

  /** `get_task`: a task of another session is not found. */
  function Find(store: map<TaskId, Record>, id: TaskId, session: Option<nat>): Option<Record> {
    if id in store && (session.None? || session.value == store[id].session) then Some(store[id])
    else None
  }

  /** `_recover_inflight_tasks`: RUNNING delegations of the previous process become FAILED. */
  function Recovered(store: map<TaskId, Record>): map<TaskId, Record> {
    map id | id in store ::
      if store[id].status == RUNNING && store[id].delegation then store[id].(status := FAILED)
      else store[id]
  }

  // ---------------------------------------------------------------- the object

  class DelegationCoordinator {
    var store: map<TaskId, Record>
    var inflight: map<TaskId, WorkerId>
    var cancelRequested: set<TaskId>
    var workers: seq<Worker>
    const maxWorkers: nat

    constructor (maxWorkers: nat, store: map<TaskId, Record>)
      ensures View() == Fields(store, map[], {}, []) && this.maxWorkers == maxWorkers
    {
      this.store, inflight, cancelRequested, workers := store, map[], {}, [];
      this.maxWorkers := maxWorkers;
    }

    function View(): Fields
      reads this
    {
      Fields(store, inflight, cancelRequested, workers)
    }

    method ReapFinishedInflight()
      modifies this`inflight
      ensures View() == Reaped(old(View()))
    {
      var doneIds := set id | id in inflight && !Live(workers, inflight[id]);
      var todo := doneIds;
      ghost var before := inflight;
      while todo != {}
        invariant todo <= doneIds
        invariant forall id :: id in inflight <==> id in before && id !in doneIds - todo
        invariant forall id :: id in inflight ==> inflight[id] == before[id]
        decreases |todo|
      {
        var id :| id in todo;
        inflight := inflight - {id};
        todo := todo - {id};
      }
      SameTable(inflight, Reaped(old(View())).inflight);
    }

    method SpawnPending(pending: seq<TaskId>)
      modifies this`inflight, this`workers
      ensures View() == SpawnAll(old(View()), pending, Slots(old(View()), maxWorkers))
    {
      var availableSlots := Slots(View(), maxWorkers);
      ghost var goal := SpawnAll(View(), pending, availableSlots);
      var i := 0;
      while i < |pending| && availableSlots > 0
        invariant 0 <= i <= |pending|
        invariant store == old(store) && cancelRequested == old(cancelRequested)
        invariant SpawnAll(View(), pending[i..], availableSlots) == goal
      {
        var id := pending[i];
        if id in store && store[id].delegation && id !in inflight {
          inflight := inflight[id := |workers|];
          workers := workers + [Worker(id, Scheduled, false)];
          availableSlots := availableSlots - 1;
        }
        i := i + 1;
      }
    }

    method BeginTask(w: WorkerId) returns (executes: bool)
      requires w < |workers| && workers[w].phase.Scheduled?
      modifies this`store, this`workers
      ensures View() == Begun(old(View()), w)
      ensures executes == StartsBackend(old(View()), w)
    {
      var id := workers[w].task;
      executes := false;
      if workers[w].cancelling || id !in store {
        workers := workers[w := Worker(id, Ended, false)];
      } else if !store[id].backendKnown {
        store := store[id := store[id].(status := FAILED)];
        workers := workers[w := Worker(id, Notifying, false)];
      } else {
        // The source reads the record back and gives up if it is CANCELLED; nothing runs between
        // the two store calls, so it always reads RUNNING.
        store := store[id := store[id].(status := RUNNING)];
        executes := true;
        workers := workers[w := Worker(id, Executing, false)];
      }
    }

    method HandleCancellation(w: WorkerId)
      requires w < |workers|
      modifies this`store, this`workers, this`cancelRequested
      ensures View() == Cancelled(old(View()), w)
    {
      var id := workers[w].task;
      if workers[w].phase.Executing? {
        var wasRequested := id in cancelRequested;
        cancelRequested := cancelRequested - {id};
        store := SetStatus(store, id, if wasRequested then CANCELLED else FAILED);
      }
      workers := workers[w := Worker(id, Ended, false)];
    }

    /** `cancel_task` up to its first suspension, or to its end. */
    method CancelTask(id: TaskId, session: Option<nat>)
      returns (waitFor: Option<WorkerId>, result: Option<Record>)
      requires forall i :: i in inflight ==> inflight[i] < |workers|
      modifies this
      ensures waitFor.Some? <==> old(Find(store, id, session).Some? && !Terminal(store[id].status)
                                      && id in inflight && Live(workers, inflight[id]))
      ensures waitFor.Some? ==>
                && waitFor.value == old(inflight[id])
                && View() == Cancel(old(View()).(cancelRequested := old(cancelRequested) + {id}), waitFor.value)
      ensures waitFor.None? ==> result.None? || Terminal(result.value.status)
      ensures waitFor.None? && result.Some? ==>
                View() == old(View()).(store := Settled(old(store), id)) && result == Lookup(store, id)
      ensures waitFor.None? && result.None? ==>
                View() == old(View()) && Find(store, id, session).None?
    {
      waitFor, result := None, Find(store, id, session);
      if result.None? || Terminal(result.value.status) {
        return;
      }
      if id in inflight && !workers[inflight[id]].phase.Ended? {
        var w := inflight[id];
        cancelRequested := cancelRequested + {id};
        workers := workers[w := workers[w].(cancelling := true)];
        return Some(w), None;
      }
      result := Settle(id);
    }

    /** `cancel_task` once the worker it waited for has ended. */
    method ResumeCancel(id: TaskId) returns (result: Option<Record>)
      modifies this`store, this`cancelRequested
      ensures View() == old(View()).(store := Settled(old(store), id),
                                     cancelRequested := old(cancelRequested) - {id})
      ensures result == Lookup(store, id)
      ensures result.None? || Terminal(result.value.status)
    {
      cancelRequested := cancelRequested - {id};
      result := Settle(id);
    }

    method Settle(id: TaskId) returns (result: Option<Record>)
      modifies this`store
      ensures View() == old(View()).(store := Settled(old(store), id))
      ensures result == Lookup(store, id)
      ensures result.None? || Terminal(result.value.status)
    {
      if id !in store {
        return None;
      }
      if !Terminal(store[id].status) {
        store := store[id := store[id].(status := CANCELLED)];
      }
      result := Some(store[id]);
    }

    method RecoverInflightTasks()
      modifies this`store
      ensures View() == old(View()).(store := Recovered(old(store)))
      ensures store.Keys == old(store.Keys)
      ensures forall id :: id in store ==>
                store[id] == if old(store)[id].status == RUNNING && old(store)[id].delegation
                             then old(store)[id].(status := FAILED) else old(store)[id]
    {
      var running := set id | id in store && store[id].status == RUNNING;
      var todo := running;
      ghost var before := store;
      while todo != {}
        invariant todo <= running
        invariant forall id :: id in store <==> id in before
        invariant forall id :: id in store ==>
          store[id] == (if id in running && id !in todo then Recovered(before)[id] else before[id])
        decreases |todo|
      {
        var id :| id in todo;
        if store[id].delegation {
          store := store[id := store[id].(status := FAILED)];
        }
        todo := todo - {id};
      }
      SameTable(store, Recovered(before));
    }
  }

  lemma SameTable<V>(a: map<TaskId, V>, b: map<TaskId, V>)
    requires forall id :: id in a <==> id in b
    requires forall id :: id in a ==> a[id] == b[id]
    ensures a == b
  {}
}
