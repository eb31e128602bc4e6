/**
 * When a terminal task record is final: exactly when no worker that may still write it is alive or
 * about to be created from a list that is out of date.
 */
module CoordinatorFinality {
  import opened Coordinator
  import opened CoordinatorRuns
  import opened CoordinatorSafety

  /** Would a worker that begins on this record change it? */
  predicate BeginChanges(r: Record) {
    r.backendKnown || r.status != FAILED
  }

  /** Worker `w` can still write the record of `id`, or start its backend. */
  predicate CanOverwrite(f: Fields, w: WorkerId, id: TaskId) {
    && w < |f.workers| && f.workers[w].task == id && id in f.store
    && (|| f.workers[w].phase.Executing?
        || (f.workers[w].phase.Scheduled? && !f.workers[w].cancelling && BeginChanges(f.store[id])))
  }

  /** The loop is about to create a worker for `id` from its list. */
  predicate WillSpawn(s: State, id: TaskId) {
    s.loop.Listed? && id !in s.f.inflight && id in SpawnAll(s.f, s.loop.pending, s.loop.slots).inflight
  }

  ghost predicate AtRisk(s: State, id: TaskId) {
    || (exists w :: CanOverwrite(s.f, w, id))
    || (WillSpawn(s, id) && id in s.f.store && BeginChanges(s.f.store[id]))
  }

  ghost predicate IsTerminal(s: State, id: TaskId) {
    id in s.f.store && Terminal(s.f.store[id].status)
  }

  /** From `s` to `s'` the record of `id` stayed as it was, and its backend was not started. */
  ghost predicate LeftAlone(s: State, s': State, id: TaskId)
    requires id in s.f.store
  {
    && id in s'.f.store && s'.f.store[id] == s.f.store[id]
    && s.started <= s'.started && id !in s'.started[|s.started|..]
  }

  // ---------------------------------------------------------------- spawning

  /** The workers that spawning adds: not begun, not cancelled, one for each new key of the table. */
  ghost predicate Adds(f: Fields, f': Fields) {
    && f'.store == f.store && |f.workers| <= |f'.workers|
    && (forall w :: 0 <= w < |f.workers| ==> f'.workers[w] == f.workers[w])
    && (forall w :: |f.workers| <= w < |f'.workers| ==>
          f'.workers[w].task in f'.inflight && f'.workers[w].task !in f.inflight && f'.workers[w].phase.Scheduled?)
    && (forall id :: id in f.inflight ==> id in f'.inflight && f'.inflight[id] == f.inflight[id])
    && (forall id :: id in f'.inflight && id !in f.inflight ==>
          |f.workers| <= f'.inflight[id] < |f'.workers| && f'.workers[f'.inflight[id]] == Worker(id, Scheduled, false))
  }

  lemma {:induction false} SpawnAllAdds(f: Fields, pending: seq<TaskId>, slots: nat)
    ensures Adds(f, SpawnAll(f, pending, slots))
    ensures forall id :: id in SpawnAll(f, pending, slots).inflight ==> id in f.inflight || id in pending
    decreases |pending|
  {
    if pending != [] && slots != 0 {
      if Spawnable(f, pending[0]) {
        SpawnAllAdds(SpawnOne(f, pending[0]), pending[1..], slots - 1);
      } else {
        SpawnAllAdds(f, pending[1..], slots);
      }
    }
  }

  /** Whom spawning picks depends on the table and on the listed records' kinds only. */
  lemma {:induction false} SpawnAllSame(f: Fields, g: Fields, pending: seq<TaskId>, slots: nat)
    requires f.inflight == g.inflight && |f.workers| == |g.workers|
    requires forall id :: id in pending ==>
               id in f.store && id in g.store && f.store[id].delegation == g.store[id].delegation
    ensures SpawnAll(f, pending, slots).inflight == SpawnAll(g, pending, slots).inflight
    decreases |pending|
  {
    if pending != [] && slots != 0 {
      assert pending[0] in pending;
      if Spawnable(f, pending[0]) {
        SpawnAllSame(SpawnOne(f, pending[0]), SpawnOne(g, pending[0]), pending[1..], slots - 1);
      } else {
        SpawnAllSame(f, g, pending[1..], slots);
      }
    }
  }

  lemma SpawnIsCalm(s: State, id: TaskId)
    requires IsTerminal(s, id) && !AtRisk(s, id) && s.loop.Listed?
    ensures LeftAlone(s, Step(s, Spawn), id) && !AtRisk(Step(s, Spawn), id)
  {
    var s' := Step(s, Spawn);
    SpawnAllAdds(s.f, s.loop.pending, s.loop.slots);
    forall w ensures !CanOverwrite(s'.f, w, id) {
      assert !CanOverwrite(s.f, w, id);
    }
  }

  lemma ListIsCalm(s: State, pending: seq<TaskId>, id: TaskId)
    requires IsTerminal(s, id) && !AtRisk(s, id)
    ensures LeftAlone(s, Step(s, ListPending(pending)), id) && !AtRisk(Step(s, ListPending(pending)), id)
  {
    var s' := Step(s, ListPending(pending));
    forall w ensures !CanOverwrite(s'.f, w, id) {
      assert !CanOverwrite(s.f, w, id);
    }
    if s'.loop.Listed? {
      SpawnAllAdds(s'.f, s'.loop.pending, s'.loop.slots);
    }
  }

  // ---------------------------------------------------------------- the other steps

  /** No worker is new, none that could not write `id` can now, and a pending list means the same. */
  ghost predicate Calm(s: State, s': State, id: TaskId) {
    && |s'.f.workers| == |s.f.workers|
    && (forall w :: CanOverwrite(s'.f, w, id) ==> CanOverwrite(s.f, w, id))
    && id in s.f.store && id in s'.f.store && s'.f.store[id] == s.f.store[id]
    && (s'.loop.Listed? ==> s'.loop == s.loop && s'.f.inflight == s.f.inflight)
    && (forall i :: i in s.f.store ==> i in s'.f.store && s'.f.store[i].delegation == s.f.store[i].delegation)
  }

  lemma CalmIsSafe(s: State, s': State, id: TaskId)
    requires Inv(s) && Calm(s, s', id) && !AtRisk(s, id)
    ensures !AtRisk(s', id)
  {
    if s'.loop.Listed? {
      SpawnAllSame(s.f, s'.f, s.loop.pending, s.loop.slots);
    }
  }

  lemma BeginIsCalm(s: State, w: WorkerId, id: TaskId)
    requires IsTerminal(s, id) && !CanOverwrite(s.f, w, id)
    ensures Calm(s, Step(s, WorkerBegins(w)), id)
    ensures LeftAlone(s, Step(s, WorkerBegins(w)), id)
  {
    var s' := Step(s, WorkerBegins(w));
    forall v | CanOverwrite(s'.f, v, id) ensures CanOverwrite(s.f, v, id) {}
  }

  lemma WorkerIsCalm(s: State, e: Event, id: TaskId)
    requires e.BackendEnds? || e.CancelLands? || e.CallbackEnds?
    requires IsTerminal(s, id) && !CanOverwrite(s.f, e.w, id)
    ensures Calm(s, Step(s, e), id) && LeftAlone(s, Step(s, e), id)
  {
    var s' := Step(s, e);
    forall v | CanOverwrite(s'.f, v, id) ensures CanOverwrite(s.f, v, id) {}
  }

  lemma CallIsCalm(s: State, e: Event, id: TaskId)
    requires e.CancelCall? || e.CancelResumes? || e.Enqueue?
    requires IsTerminal(s, id)
    ensures Calm(s, Step(s, e), id) && LeftAlone(s, Step(s, e), id)
  {
    var s' := Step(s, e);
    forall v | CanOverwrite(s'.f, v, id) ensures CanOverwrite(s.f, v, id) {}
  }

  lemma LoopIsCalm(s: State, e: Event, id: TaskId)
    requires e.Start? || e.Reap? || e.StopSeen? || e.DrainEnds? || e.ShutdownCancels? || e.Crash?
    requires IsTerminal(s, id)
    ensures Calm(s, Step(s, e), id) && LeftAlone(s, Step(s, e), id)
  {
    var s' := Step(s, e);
    forall v | CanOverwrite(s'.f, v, id) ensures CanOverwrite(s.f, v, id) {}
  }

  /** A terminal record nobody can write stays so, whatever the step. */
  lemma StepIsSafe(s: State, e: Event, id: TaskId)
    requires Inv(s) && IsTerminal(s, id) && !AtRisk(s, id)
    ensures LeftAlone(s, Step(s, e), id) && !AtRisk(Step(s, e), id)
  {
    match e
    case Spawn =>
      if s.loop.Listed? { SpawnIsCalm(s, id); }
    case ListPending(pending) => ListIsCalm(s, pending, id);
    case WorkerBegins(w) =>
      BeginIsCalm(s, w, id);
      CalmIsSafe(s, Step(s, e), id);
    case _ =>
      if e.BackendEnds? || e.CancelLands? || e.CallbackEnds? {
        WorkerIsCalm(s, e, id);
      } else if e.CancelCall? || e.CancelResumes? || e.Enqueue? {
        CallIsCalm(s, e, id);
      } else {
        LoopIsCalm(s, e, id);
      }
      CalmIsSafe(s, Step(s, e), id);
  }

  lemma {:induction false} RunIsSafe(s: State, events: seq<Event>, id: TaskId)
    requires Inv(s) && IsTerminal(s, id) && !AtRisk(s, id)
    ensures LeftAlone(s, Run(s, events), id)
    decreases |events|
  {
    if events != [] {
      var s1 := Step(s, events[0]);
      StepIsSafe(s, events[0], id);
      StepKeepsInv(s, events[0]);
      RunIsSafe(s1, events[1..], id);
      var s2 := Run(s1, events[1..]);
      assert s2.started[|s.started|..] == s1.started[|s.started|..] + s2.started[|s1.started|..];
    }
  }

  // ---------------------------------------------------------------- what is at risk can be lost

  lemma OverwriteLoses(s: State, w: WorkerId, id: TaskId) returns (e: Event)
    requires IsTerminal(s, id) && CanOverwrite(s.f, w, id)
    ensures id in Step(s, e).f.store && Step(s, e).f.store[id] != s.f.store[id]
  {
    if s.f.workers[w].phase.Executing? {
      e := BackendEnds(w, if s.f.store[id].status == COMPLETED then Fails else Succeeds);
    } else {
      e := WorkerBegins(w);
    }
  }

  lemma {:induction false} RunOne(s: State, e: Event)
    ensures Run(s, [e]) == Step(s, e)
  {
    assert Run(s, [e]) == Run(Step(s, e), [e][1..]);
    assert [e][1..] == [];
  }

  lemma {:induction false} RunTwo(s: State, d: Event, e: Event)
    ensures Run(s, [d, e]) == Step(Step(s, d), e)
  {
    assert Run(s, [d, e]) == Run(Step(s, d), [d, e][1..]);
    assert [d, e][1..] == [e];
    RunOne(Step(s, d), e);
  }

  lemma AtRiskCanBeLost(s: State, id: TaskId) returns (events: seq<Event>)
    requires IsTerminal(s, id) && AtRisk(s, id)
    ensures !LeftAlone(s, Run(s, events), id)
  {
    if w :| CanOverwrite(s.f, w, id) {
      var e := OverwriteLoses(s, w, id);
      events := [e];
      RunOne(s, e);
    } else {
      SpawnAllAdds(s.f, s.loop.pending, s.loop.slots);
      var s1 := Step(s, Spawn);
      var e := OverwriteLoses(s1, s1.f.inflight[id], id);
      events := [Spawn, e];
      RunTwo(s, Spawn, e);
    }
  }

  /**
   * In every reachable state, orderly or not, a terminal record is final (no continuation changes it
   * or starts its backend) if and only if it is not at risk.
   */
  lemma {:induction false} FinalIffNotAtRisk(max: nat, before: seq<Event>, id: TaskId)
    requires IsTerminal(Run(Initial(max), before), id)
    ensures (forall after :: LeftAlone(Run(Initial(max), before), Run(Run(Initial(max), before), after), id))
            <==> !AtRisk(Run(Initial(max), before), id)
  {
    var s := Run(Initial(max), before);
    Reachable(max, before);
    if AtRisk(s, id) {
      var after := AtRiskCanBeLost(s, id);
    } else {
      forall after ensures LeftAlone(s, Run(s, after), id) {
        RunIsSafe(s, after, id);
      }
    }
  }

  /**
   * After an orderly run no terminal record is at risk; so a record that became terminal on an
   * orderly run is final, however disorderly the rest of the run is.
   */
  lemma {:induction false} TerminalIsForever(max: nat, before: seq<Event>, after: seq<Event>, id: TaskId)
    requires OrderlyRun(Initial(max), before)
    requires IsTerminal(Run(Initial(max), before), id)
    ensures LeftAlone(Run(Initial(max), before), Run(Run(Initial(max), before), after), id)
  {
    var s := Run(Initial(max), before);
    InitialIsFinal(max);
    OrderlyIsFinal(Initial(max), before);
    if s.loop.Listed? {
      SpawnAllAdds(s.f, s.loop.pending, s.loop.slots);
    }
    forall w: WorkerId ensures !CanOverwrite(s.f, w, id) {
      assert CanOverwrite(s.f, w, id) ==> Live(s.f.workers, w);
    }
    RunIsSafe(s, after, id);
  }
}
