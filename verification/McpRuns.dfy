/**
 * Every interleaving of the tasks that share one MCP connection.
 *
 * The tasks are operations, `start` and `stop` calls and the scheduled `_close_stale` tasks; they
 * are cut where the source suspends: waiting for the lock, `__aenter__`, `__aexit__` and the
 * operation itself.  `reconfigure` takes no lock and may run between any two of these steps.
 * `History` and `Task.runs` only record what happened; no step reads them.
 */
module McpRuns {
  import opened Options
  import opened McpConnection

  /** What the caller of `_ensure` does with the session it gets. */
  datatype Purpose =
    | ForStart
    | ForRun
    | ForReplay(failed: SessionId)  // after a reconnect: the attempt is forced

  datatype Phase =
    | EnsureWait(why: Purpose)                      // waiting for the lock in _ensure
    | Entering(why: Purpose, session: SessionId)    // holds the lock, in session.__aenter__
    | InOp(session: SessionId, first: Option<SessionId>)  // first: the session of the first try
    | ReconnectWait(failed: SessionId)              // waiting for the lock in _reconnect
    | ReconnectClosing(failed: SessionId)           // in failed.__aexit__
    | StopWait                                      // waiting for the lock in stop
    | StopClosing(queue: seq<SessionId>)            // in queue[0].__aexit__
    | CloserReady                                   // a scheduled _close_stale
    | ClosingStale(session: SessionId)              // in session.__aexit__
    | Done

  /** `replay`: the op may run a second time; `runs`: the sessions it was run on. */
  datatype Task = Task(phase: Phase, replay: bool, runs: seq<SessionId>)

  datatype History = History(
    entered: set<SessionId>,      // __aenter__ succeeded
    closed: seq<SessionId>,       // __aexit__ ended, in order
    displaced: set<SessionId>,    // detached by reconfigure
    stopTaken: set<SessionId>,    // detached by stop
    lost: set<SessionId>,         // detached by _reconnect
    built: map<SessionId, nat>,   // the settings each session was built from
    raced: set<SessionId>,        // settings were replaced during its __aenter__
    failTimes: seq<real>,         // the current streak of connect failures
    bypassed: bool,               // an attempt of this streak began inside the backoff window
    noLoop: bool)                 // a closer could not be scheduled

  datatype World = World(
    conn: Fields,
    lock: Option<nat>,            // the task that holds the lock across a suspension
    tasks: seq<Task>,
    clock: real,
    nextSession: SessionId,
    past: History)

  datatype Event =
    | SpawnStart
    | SpawnRun(replay: bool)
    | SpawnStop
    | Reconfigure(loopRunning: bool)
    | Acquire(t: nat)
    | EnterOk(t: nat)
    | EnterFail(t: nat)
    | OpEnds(t: nat)              // a result, or an error that is not a connection error
    | OpLosesSession(t: nat)      // a connection error
    | CloseEnds(t: nat)
    | CloserStarts(t: nat)
    | Tick(seconds: real)

  const INITIAL: World :=
    World(FRESH, None, [], 0.0, 0, History({}, [], {}, {}, {}, map[], {}, [], false, false))

  // ---------------------------------------------------------------- steps

  function Spawn(w: World, phase: Phase, replay: bool): World {
    w.(tasks := w.tasks + [Task(phase, replay, [])])
  }

  function Goto(w: World, t: nat, phase: Phase): World
    requires t < |w.tasks|
  {
    w.(tasks := w.tasks[t := w.tasks[t].(phase := phase)])
  }

  function StartOp(w: World, t: nat, s: SessionId, first: Option<SessionId>): World
    requires t < |w.tasks|
  {
    w.(tasks := w.tasks[t := w.tasks[t].(phase := InOp(s, first), runs := w.tasks[t].runs + [s])])
  }

  function Inflight(w: World, n: int): World {
    w.(conn := w.conn.(inflight := n))
  }

  /** The `_close_stale` loop up to its next close. */
  function CloseNext(w: World, t: nat): (w': World)
    requires t < |w.tasks|
    ensures |w'.tasks| == |w.tasks| && w'.tasks == w.tasks[t := w'.tasks[t]]
    ensures w'.past == w.past && w'.lock == w.lock
  {
    if ClosesStale(w.conn)
    then Goto(w.(conn := PopStale(w.conn)), t, ClosingStale(w.conn.stale[|w.conn.stale| - 1]))
    else Goto(w, t, Done)
  }

  /** The `finally` of `_run`. */
  function FinishOp(w: World, t: nat): (w': World)
    requires t < |w.tasks|
    ensures |w'.tasks| == |w.tasks| && w'.tasks == w.tasks[t := w'.tasks[t]]
    ensures w'.past == w.past && w'.lock == w.lock
  {
    CloseNext(Inflight(w, w.conn.inflight - 1), t)
  }

  function EnsureReturns(w: World, t: nat, why: Purpose, live: Option<SessionId>): (w': World)
    requires t < |w.tasks|
    ensures |w'.tasks| == |w.tasks| && w'.tasks == w.tasks[t := w'.tasks[t]]
    ensures w'.past == w.past && w'.lock == w.lock
  {
    match why
    case ForStart => Goto(w, t, Done)
    case ForRun =>
      if live.None? then Goto(w, t, Done)
      else StartOp(Inflight(w, w.conn.inflight + 1), t, live.value, None)
    case ForReplay(failed) =>
      if !w.tasks[t].replay || live.None? then FinishOp(w, t)
      else StartOp(w, t, live.value, Some(failed))
  }

  function BeginAttempt(w: World, t: nat, why: Purpose): (w': World)
    requires t < |w.tasks|
    ensures |w'.tasks| == |w.tasks| && w'.tasks == w.tasks[t := w'.tasks[t]]
    ensures w'.past.entered == w.past.entered
  {
    Goto(w.(lock := Some(t), nextSession := w.nextSession + 1,
            past := w.past.(built := w.past.built[w.nextSession := w.conn.settings],
                            bypassed := w.past.bypassed || w.clock < w.conn.retryAt)),
         t, Entering(why, w.nextSession))
  }

  function StepEnsure(w: World, t: nat, why: Purpose): (w': World)
    requires t < |w.tasks|
    ensures |w'.tasks| == |w.tasks| && w'.tasks == w.tasks[t := w'.tasks[t]]
    ensures w'.past.entered == w.past.entered
  {
    if w.conn.toolset.Some? then EnsureReturns(w, t, why, w.conn.toolset)
    else if MayAttempt(w.conn, why.ForReplay?, w.clock) then BeginAttempt(w, t, why)
    else EnsureReturns(w, t, why, None)
  }

  function Lose(w: World, failed: SessionId): World {
    w.(conn := Detach(w.conn, failed), past := w.past.(lost := w.past.lost + {failed}))
  }

  function StepReconnect(w: World, t: nat, failed: SessionId): (w': World)
    requires t < |w.tasks|
    ensures |w'.tasks| == |w.tasks| && w'.tasks == w.tasks[t := w'.tasks[t]]
    ensures w'.past.entered == w.past.entered
  {
    if w.conn.toolset == Some(failed) then Goto(Lose(w, failed), t, ReconnectClosing(failed))
    else Goto(w, t, EnsureWait(ForReplay(failed)))
  }

  function Drain(w: World): World {
    w.(conn := Emptied(w.conn),
       past := w.past.(stopTaken := w.past.stopTaken + set s | s in ToClose(w.conn)))
  }

  function StepStop(w: World, t: nat): (w': World)
    requires t < |w.tasks|
    ensures |w'.tasks| == |w.tasks| && w'.tasks == w.tasks[t := w'.tasks[t]]
    ensures w'.past.entered == w.past.entered
  {
    var queue := ToClose(w.conn);
    Goto(Drain(w), t, if queue == [] then Done else StopClosing(queue))
  }

  function StepAcquire(w: World, t: nat): (w': World)
    ensures |w'.tasks| == |w.tasks|
    ensures t < |w.tasks| ==> w'.tasks == w.tasks[t := w'.tasks[t]]
    ensures w'.past.entered == w.past.entered
  {
    if w.lock.Some? || t >= |w.tasks| then w
    else match w.tasks[t].phase
      case EnsureWait(why) => StepEnsure(w, t, why)
      case ReconnectWait(failed) => StepReconnect(w, t, failed)
      case StopWait => StepStop(w, t)
      case _ => w
  }

  function Entered(w: World, s: SessionId): World {
    w.(conn := Connected(w.conn, s), lock := None,
       past := w.past.(entered := w.past.entered + {s}, failTimes := [], bypassed := false))
  }

  function Failed(w: World): World {
    w.(conn := ConnectFailed(w.conn, w.clock), lock := None,
       past := w.past.(failTimes := w.past.failTimes + [w.clock]))
  }

  function StepEnterEnds(w: World, t: nat, ok: bool): (w': World)
    ensures |w'.tasks| == |w.tasks|
    ensures t < |w.tasks| ==> w'.tasks == w.tasks[t := w'.tasks[t]]
  {
    if t >= |w.tasks| || !w.tasks[t].phase.Entering? then w
    else
      var Entering(why, s) := w.tasks[t].phase;
      if ok then EnsureReturns(Entered(w, s), t, why, Some(s))
      else EnsureReturns(Failed(w), t, why, None)
  }

  function StepOpEnds(w: World, t: nat, connectionError: bool): (w': World)
    ensures |w'.tasks| == |w.tasks|
    ensures t < |w.tasks| ==> w'.tasks == w.tasks[t := w'.tasks[t]]
    ensures w'.past.entered == w.past.entered
  {
    if t >= |w.tasks| || !w.tasks[t].phase.InOp? then w
    else if connectionError && w.tasks[t].phase.first.None?
      then Goto(w, t, ReconnectWait(w.tasks[t].phase.session))
    else FinishOp(w, t)
  }

  function Close(w: World, s: SessionId): World {
    w.(past := w.past.(closed := w.past.closed + [s]))
  }

  /** The sessions a task has been handed and must close. */
  function Held(phase: Phase): seq<SessionId> {
    match phase
    case ReconnectClosing(failed) => [failed]
    case StopClosing(queue) => queue
    case ClosingStale(s) => [s]
    case _ => []
  }

  function AfterClose(w: World, t: nat, phase: Phase): (w': World)
    requires t < |w.tasks|
    ensures |w'.tasks| == |w.tasks| && w'.tasks == w.tasks[t := w'.tasks[t]]
    ensures w'.past == w.past
  {
    match phase
    case ReconnectClosing(failed) => Goto(w, t, EnsureWait(ForReplay(failed)))
    case StopClosing(queue) => Goto(w, t, if |queue| <= 1 then Done else StopClosing(queue[1..]))
    case _ => CloseNext(w, t)
  }

  function StepCloseEnds(w: World, t: nat): (w': World)
    ensures |w'.tasks| == |w.tasks|
    ensures t < |w.tasks| ==> w'.tasks == w.tasks[t := w'.tasks[t]]
    ensures w'.past.entered == w.past.entered
  {
    if t >= |w.tasks| || Held(w.tasks[t].phase) == [] then w
    else AfterClose(Close(w, Held(w.tasks[t].phase)[0]), t, w.tasks[t].phase)
  }

  function StepCloserStarts(w: World, t: nat): (w': World)
    ensures |w'.tasks| == |w.tasks|
    ensures t < |w.tasks| ==> w'.tasks == w.tasks[t := w'.tasks[t]]
    ensures w'.past == w.past && w'.lock == w.lock
  {
    if t >= |w.tasks| || !w.tasks[t].phase.CloserReady? then w else CloseNext(w, t)
  }

  function StepTick(w: World, seconds: real): World {
    if seconds < 0.0 then w else w.(clock := w.clock + seconds)
  }

  /** The session whose `__aenter__` is running, if any. */
  function EnteringNow(w: World): set<SessionId> {
    if w.lock.Some? && w.lock.value < |w.tasks| && w.tasks[w.lock.value].phase.Entering?
    then {w.tasks[w.lock.value].phase.session} else {}
  }

  function Resettle(w: World): World {
    w.(conn := Replaced(w.conn),
       past := w.past.(
         displaced := w.past.displaced
           + if w.conn.toolset.Some? then {w.conn.toolset.value} else {},
         raced := w.past.raced + EnteringNow(w), failTimes := [], bypassed := false))
  }

  function StepReconfigure(w: World, loopRunning: bool): World {
    var w' := Resettle(w);
    if !ClosesStale(w'.conn) then w'
    else if loopRunning then Spawn(w', CloserReady, false)
    else w'.(past := w'.past.(noLoop := true))
  }

  function Step(w: World, e: Event): World {
    match e
    case SpawnStart => Spawn(w, EnsureWait(ForStart), false)
    case SpawnRun(replay) => Spawn(w, EnsureWait(ForRun), replay)
    case SpawnStop => Spawn(w, StopWait, false)
    case Reconfigure(loopRunning) => StepReconfigure(w, loopRunning)
    case Acquire(t) => StepAcquire(w, t)
    case EnterOk(t) => StepEnterEnds(w, t, true)
    case EnterFail(t) => StepEnterEnds(w, t, false)
    case OpEnds(t) => StepOpEnds(w, t, false)
    case OpLosesSession(t) => StepOpEnds(w, t, true)
    case CloseEnds(t) => StepCloseEnds(w, t)
    case CloserStarts(t) => StepCloserStarts(w, t)
    case Tick(seconds) => StepTick(w, seconds)
  }

  function Run(w: World, events: seq<Event>): World
    decreases |events|
  {
    if events == [] then w else Run(Step(w, events[0]), events[1..])
  }

  // ---------------------------------------------------------------- who owns a session

  function One(b: bool): nat { if b then 1 else 0 }

  /** How often `s` occurs in `xs`. */
  function Occurs(xs: seq<SessionId>, s: SessionId): nat {
    if xs == [] then 0 else Occurs(xs[..|xs| - 1], s) + One(xs[|xs| - 1] == s)
  }

  function HeldCount(tasks: seq<Task>, s: SessionId): nat {
    if tasks == [] then 0
    else HeldCount(tasks[..|tasks| - 1], s) + Occurs(Held(tasks[|tasks| - 1].phase), s)
  }

  /** The number of places `s` is in: live, parked, handed to a closer, closed. */
  function Places(w: World, s: SessionId): nat {
    One(w.conn.toolset == Some(s)) + Occurs(w.conn.stale, s) + HeldCount(w.tasks, s)
    + Occurs(w.past.closed, s)
  }

  /** Only the task in `__aenter__` holds the lock across a suspension, and then nothing is live. */
  ghost predicate LockInv(w: World) {
    && (forall t :: 0 <= t < |w.tasks| && w.tasks[t].phase.Entering? ==>
          w.lock == Some(t) && w.conn.toolset.None?)
    && (w.lock.Some? ==> w.lock.value < |w.tasks| && w.tasks[w.lock.value].phase.Entering?)
    && (w.lock.Some? ==> w.tasks[w.lock.value].phase.session < w.nextSession
                         && w.tasks[w.lock.value].phase.session !in w.past.entered)
    && (forall s :: s in w.past.entered ==> s < w.nextSession)
  }

  ghost predicate OwnerInv(w: World) {
    forall s :: Places(w, s) == One(s in w.past.entered)
  }

  lemma {:induction false} HeldUpdate(tasks: seq<Task>, t: nat, task: Task, s: SessionId)
    requires t < |tasks|
    ensures HeldCount(tasks[t := task], s)
         == HeldCount(tasks, s) - Occurs(Held(tasks[t].phase), s) + Occurs(Held(task.phase), s)
  {
    var n := |tasks| - 1;
    var tasks' := tasks[t := task];
    if t == n {
      assert tasks'[..n] == tasks[..n];
    } else {
      assert tasks'[..n] == tasks[..n][t := task];
      HeldUpdate(tasks[..n], t, task, s);
    }
  }

  lemma {:induction false} HeldSpawn(tasks: seq<Task>, task: Task, s: SessionId)
    ensures HeldCount(tasks + [task], s) == HeldCount(tasks, s) + Occurs(Held(task.phase), s)
  {
    assert (tasks + [task])[..|tasks|] == tasks;
  }

  lemma {:induction false} OccursSnoc(xs: seq<SessionId>, x: SessionId, s: SessionId)
    ensures Occurs(xs + [x], s) == Occurs(xs, s) + One(x == s)
  {
    assert (xs + [x])[..|xs|] == xs;
  }

  lemma {:induction false} OccursCons(x: SessionId, xs: seq<SessionId>, s: SessionId)
    ensures Occurs([x] + xs, s) == One(x == s) + Occurs(xs, s)
  {
    if xs == [] {
      assert [x] + xs == [] + [x];
    } else {
      assert ([x] + xs)[..|xs|] == [x] + xs[..|xs| - 1];
      OccursCons(x, xs[..|xs| - 1], s);
    }
  }

  lemma {:induction false} GotoPlaces(w: World, t: nat, phase: Phase, s: SessionId)
    requires t < |w.tasks|
    ensures Places(Goto(w, t, phase), s)
         == Places(w, s) - Occurs(Held(w.tasks[t].phase), s) + Occurs(Held(phase), s)
  {
    HeldUpdate(w.tasks, t, w.tasks[t].(phase := phase), s);
  }

  lemma {:induction false} PopPlaces(w: World, s: SessionId)
    requires ClosesStale(w.conn)
    ensures var popped := w.conn.stale[|w.conn.stale| - 1];
            && Places(w.(conn := PopStale(w.conn)), s) == Places(w, s) - One(popped == s)
            && Occurs(Held(ClosingStale(popped)), s) == One(popped == s)
  {
    OccursSnoc([], w.conn.stale[|w.conn.stale| - 1], s);
  }

  lemma {:induction false} CloseNextPlaces(w: World, t: nat, s: SessionId)
    requires t < |w.tasks|
    ensures Places(CloseNext(w, t), s) == Places(w, s) - Occurs(Held(w.tasks[t].phase), s)
  {
    if ClosesStale(w.conn) {
      PopPlaces(w, s);
      GotoPlaces(w.(conn := PopStale(w.conn)), t, ClosingStale(w.conn.stale[|w.conn.stale| - 1]), s);
    } else {
      GotoPlaces(w, t, Done, s);
    }
  }

  lemma {:induction false} EnsureReturnsPlaces(w: World, t: nat, why: Purpose, live: Option<SessionId>, s: SessionId)
    requires t < |w.tasks|
    ensures Places(EnsureReturns(w, t, why, live), s)
         == Places(w, s) - Occurs(Held(w.tasks[t].phase), s)
  {
    var w' := EnsureReturns(w, t, why, live);
    if why.ForReplay? && (!w.tasks[t].replay || live.None?) {
      CloseNextPlaces(Inflight(w, w.conn.inflight - 1), t, s);
    } else {
      HeldUpdate(w.tasks, t, w'.tasks[t], s);
    }
  }

  lemma StepKeepsLock(w: World, e: Event)
    requires LockInv(w)
    ensures LockInv(Step(w, e))
  {
    match e
    case SpawnStart => SpawnKeepsLock(w, EnsureWait(ForStart), false);
    case SpawnRun(replay) => SpawnKeepsLock(w, EnsureWait(ForRun), replay);
    case SpawnStop => SpawnKeepsLock(w, StopWait, false);
    case Reconfigure(loopRunning) => ReconfigureKeepsLock(w, loopRunning);
    case Acquire(t) => AcquireKeepsLock(w, t);
    case EnterOk(t) => EnterEndsKeepsLock(w, t, true);
    case EnterFail(t) => EnterEndsKeepsLock(w, t, false);
    case OpEnds(t) => OpEndsKeepsLock(w, t, false);
    case OpLosesSession(t) => OpEndsKeepsLock(w, t, true);
    case CloseEnds(t) => CloseEndsKeepsLock(w, t);
    case CloserStarts(t) => CloserStartsKeepsLock(w, t);
    case Tick(_) =>
  }

  lemma SpawnKeepsLock(w: World, phase: Phase, replay: bool)
    requires LockInv(w) && !phase.Entering?
    ensures LockInv(Spawn(w, phase, replay))
  {}

  lemma ResettleKeepsLock(w: World)
    requires LockInv(w)
    ensures LockInv(Resettle(w))
  {}

  lemma ReconfigureKeepsLock(w: World, loopRunning: bool)
    requires LockInv(w)
    ensures LockInv(StepReconfigure(w, loopRunning))
  {
    ResettleKeepsLock(w);
    SpawnKeepsLock(Resettle(w), CloserReady, false);
  }

  lemma AcquireKeepsLock(w: World, t: nat)
    requires LockInv(w)
    ensures LockInv(StepAcquire(w, t))
  {}

  lemma EnterEndsKeepsLock(w: World, t: nat, ok: bool)
    requires LockInv(w)
    ensures LockInv(StepEnterEnds(w, t, ok))
  {}

  lemma OpEndsKeepsLock(w: World, t: nat, connectionError: bool)
    requires LockInv(w)
    ensures LockInv(StepOpEnds(w, t, connectionError))
  {}

  lemma CloseEndsKeepsLock(w: World, t: nat)
    requires LockInv(w)
    ensures LockInv(StepCloseEnds(w, t))
  {}

  lemma CloserStartsKeepsLock(w: World, t: nat)
    requires LockInv(w)
    ensures LockInv(StepCloserStarts(w, t))
  {}

  /** Each step moves `s` between places, or enters it into exactly one. */
  lemma StepPlaces(w: World, e: Event, s: SessionId)
    requires LockInv(w)
    requires Places(w, s) == One(s in w.past.entered)
    ensures Places(Step(w, e), s) == One(s in Step(w, e).past.entered)
  {
    match e
    case SpawnStart => SpawnPlaces(w, EnsureWait(ForStart), false, s);
    case SpawnRun(replay) => SpawnPlaces(w, EnsureWait(ForRun), replay, s);
    case SpawnStop => SpawnPlaces(w, StopWait, false, s);
    case Reconfigure(loopRunning) => ReconfigurePlaces(w, loopRunning, s);
    case Acquire(t) => AcquirePlaces(w, t, s);
    case EnterOk(t) => EnterEndsPlaces(w, t, true, s);
    case EnterFail(t) => EnterEndsPlaces(w, t, false, s);
    case OpEnds(t) => OpEndsPlaces(w, t, false, s);
    case OpLosesSession(t) => OpEndsPlaces(w, t, true, s);
    case CloseEnds(t) => CloseEndsPlaces(w, t, s);
    case CloserStarts(t) => CloserStartsPlaces(w, t, s);
    case Tick(_) =>
  }

  lemma SpawnPlaces(w: World, phase: Phase, replay: bool, s: SessionId)
    requires Held(phase) == []
    ensures Places(Spawn(w, phase, replay), s) == Places(w, s)
    ensures Spawn(w, phase, replay).past == w.past
  {
    HeldSpawn(w.tasks, Task(phase, replay, []), s);
  }

  lemma ResettlePlaces(w: World, s: SessionId)
    ensures Places(Resettle(w), s) == Places(w, s) && Resettle(w).past.entered == w.past.entered
  {
    if w.conn.toolset.Some? {
      OccursSnoc(w.conn.stale, w.conn.toolset.value, s);
    }
  }

  lemma ReconfigurePlaces(w: World, loopRunning: bool, s: SessionId)
    ensures Places(StepReconfigure(w, loopRunning), s) == Places(w, s)
    ensures StepReconfigure(w, loopRunning).past.entered == w.past.entered
  {
    ResettlePlaces(w, s);
    SpawnPlaces(Resettle(w), CloserReady, false, s);
  }

  lemma CloserStartsPlaces(w: World, t: nat, s: SessionId)
    ensures Places(StepCloserStarts(w, t), s) == Places(w, s)
  {
    if t < |w.tasks| && w.tasks[t].phase.CloserReady? {
      CloseNextPlaces(w, t, s);
    }
  }

  lemma AcquirePlaces(w: World, t: nat, s: SessionId)
    ensures Places(StepAcquire(w, t), s) == Places(w, s)
  {
    if w.lock.None? && t < |w.tasks| {
      match w.tasks[t].phase
      case EnsureWait(why) => EnsurePlaces(w, t, why, s);
      case ReconnectWait(failed) => ReconnectPlaces(w, t, failed, s);
      case StopWait => StopPlaces(w, t, s);
      case _ =>
    }
  }

  lemma EnsurePlaces(w: World, t: nat, why: Purpose, s: SessionId)
    requires t < |w.tasks| && Held(w.tasks[t].phase) == []
    ensures Places(StepEnsure(w, t, why), s) == Places(w, s)
  {
    if w.conn.toolset.Some? || !MayAttempt(w.conn, why.ForReplay?, w.clock) {
      EnsureReturnsPlaces(w, t, why, w.conn.toolset, s);
    } else {
      GotoPlaces(w, t, Entering(why, w.nextSession), s);
    }
  }

  lemma ReconnectPlaces(w: World, t: nat, failed: SessionId, s: SessionId)
    requires t < |w.tasks| && Held(w.tasks[t].phase) == []
    ensures Places(StepReconnect(w, t, failed), s) == Places(w, s)
  {
    if w.conn.toolset == Some(failed) {
      GotoPlaces(Lose(w, failed), t, ReconnectClosing(failed), s);
      OccursSnoc([], failed, s);
    } else {
      GotoPlaces(w, t, EnsureWait(ForReplay(failed)), s);
    }
  }

  lemma StopPlaces(w: World, t: nat, s: SessionId)
    requires t < |w.tasks| && Held(w.tasks[t].phase) == []
    ensures Places(StepStop(w, t), s) == Places(w, s)
  {
    var queue := ToClose(w.conn);
    GotoPlaces(Drain(w), t, if queue == [] then Done else StopClosing(queue), s);
    if w.conn.toolset.Some? {
      OccursCons(w.conn.toolset.value, w.conn.stale, s);
    } else {
      assert queue == w.conn.stale;
    }
  }

  lemma EnterEndsPlaces(w: World, t: nat, ok: bool, s: SessionId)
    requires LockInv(w)
    requires Places(w, s) == One(s in w.past.entered)
    ensures Places(StepEnterEnds(w, t, ok), s) == One(s in StepEnterEnds(w, t, ok).past.entered)
  {
    if t < |w.tasks| && w.tasks[t].phase.Entering? {
      var Entering(why, session) := w.tasks[t].phase;
      if ok {
        EnsureReturnsPlaces(Entered(w, session), t, why, Some(session), s);
      } else {
        EnsureReturnsPlaces(Failed(w), t, why, None, s);
      }
    }
  }

  lemma OpEndsPlaces(w: World, t: nat, connectionError: bool, s: SessionId)
    ensures Places(StepOpEnds(w, t, connectionError), s) == Places(w, s)
  {
    if t < |w.tasks| && w.tasks[t].phase.InOp? {
      if connectionError && w.tasks[t].phase.first.None? {
        GotoPlaces(w, t, ReconnectWait(w.tasks[t].phase.session), s);
      } else {
        CloseNextPlaces(Inflight(w, w.conn.inflight - 1), t, s);
      }
    }
  }

  lemma CloseEndsPlaces(w: World, t: nat, s: SessionId)
    ensures Places(StepCloseEnds(w, t), s) == Places(w, s)
  {
    if t < |w.tasks| && Held(w.tasks[t].phase) != [] {
      var held := Held(w.tasks[t].phase);
      OccursSnoc(w.past.closed, held[0], s);
      AfterClosePlaces(Close(w, held[0]), t, s);
    }
  }

  lemma {:induction false} FirstHeld(held: seq<SessionId>, s: SessionId)
    requires held != []
    ensures Occurs(held, s) == One(held[0] == s) + Occurs(held[1..], s)
  {
    assert held == [held[0]] + held[1..];
    OccursCons(held[0], held[1..], s);
  }

  lemma AfterClosePlaces(w: World, t: nat, s: SessionId)
    requires t < |w.tasks| && Held(w.tasks[t].phase) != []
    ensures Places(AfterClose(w, t, w.tasks[t].phase), s) + One(Held(w.tasks[t].phase)[0] == s)
         == Places(w, s)
  {
    FirstHeld(Held(w.tasks[t].phase), s);
    match w.tasks[t].phase
    case ReconnectClosing(failed) => GotoPlaces(w, t, EnsureWait(ForReplay(failed)), s);
    case StopClosing(queue) => StopClosingPlaces(w, t, queue, s);
    case _ => CloseNextPlaces(w, t, s);
  }

  lemma {:induction false} StopClosingPlaces(w: World, t: nat, queue: seq<SessionId>, s: SessionId)
    requires t < |w.tasks| && w.tasks[t].phase == StopClosing(queue)
    ensures Places(AfterClose(w, t, w.tasks[t].phase), s)
         == Places(w, s) - Occurs(queue, s) + if |queue| <= 1 then 0 else Occurs(queue[1..], s)
  {
    GotoPlaces(w, t, if |queue| <= 1 then Done else StopClosing(queue[1..]), s);
  }

  // ---------------------------------------------------------------- operations in flight

  /** Between `_inflight += 1` and `_inflight -= 1`. */
  predicate Counted(phase: Phase) {
    match phase
    case InOp(_, _) => true
    case ReconnectWait(_) => true
    case ReconnectClosing(_) => true
    case EnsureWait(why) => why.ForReplay?
    case Entering(why, _) => why.ForReplay?
    case _ => false
  }

  function OpCount(tasks: seq<Task>): nat {
    if tasks == [] then 0
    else OpCount(tasks[..|tasks| - 1]) + One(Counted(tasks[|tasks| - 1].phase))
  }

  lemma {:induction false} OpCountUpdate(tasks: seq<Task>, t: nat, task: Task)
    requires t < |tasks|
    ensures OpCount(tasks[t := task])
         == OpCount(tasks) - One(Counted(tasks[t].phase)) + One(Counted(task.phase))
  {
    var n := |tasks| - 1;
    if t == n {
      assert tasks[t := task][..n] == tasks[..n];
    } else {
      assert tasks[t := task][..n] == tasks[..n][t := task];
      OpCountUpdate(tasks[..n], t, task);
    }
  }

  lemma {:induction false} OpCountPositive(tasks: seq<Task>, t: nat)
    requires t < |tasks| && Counted(tasks[t].phase)
    ensures OpCount(tasks) > 0
  {
    if t < |tasks| - 1 {
      OpCountPositive(tasks[..|tasks| - 1], t);
    }
  }

  ghost predicate InflightInv(w: World) {
    w.conn.inflight == OpCount(w.tasks)
  }

  lemma {:induction false} OpCountSpawn(tasks: seq<Task>, task: Task)
    ensures OpCount(tasks + [task]) == OpCount(tasks) + One(Counted(task.phase))
  {
    assert (tasks + [task])[..|tasks|] == tasks;
  }

  /** The counter moves with the phase of the only task a step changes. */
  ghost predicate Moves(w: World, w': World, t: nat)
    requires t < |w.tasks| == |w'.tasks|
  {
    w'.conn.inflight == w.conn.inflight - One(Counted(w.tasks[t].phase)) + One(Counted(w'.tasks[t].phase))
  }

  lemma AcquireMovesCounter(w: World, t: nat)
    requires t < |w.tasks|
    ensures Moves(w, StepAcquire(w, t), t)
  {}

  lemma EnterEndsMovesCounter(w: World, t: nat, ok: bool)
    requires t < |w.tasks|
    ensures Moves(w, StepEnterEnds(w, t, ok), t)
  {}

  lemma OpEndsMovesCounter(w: World, t: nat, connectionError: bool)
    requires t < |w.tasks|
    ensures Moves(w, StepOpEnds(w, t, connectionError), t)
  {}

  lemma CloseEndsMovesCounter(w: World, t: nat)
    requires t < |w.tasks|
    ensures Moves(w, StepCloseEnds(w, t), t)
  {}

  lemma CloserStartsMovesCounter(w: World, t: nat)
    requires t < |w.tasks|
    ensures Moves(w, StepCloserStarts(w, t), t)
  {}

  lemma MovedKeepsInflight(w: World, w': World, t: nat)
    requires InflightInv(w) && t < |w.tasks| == |w'.tasks|
    requires w'.tasks == w.tasks[t := w'.tasks[t]] && Moves(w, w', t)
    ensures InflightInv(w')
  {
    OpCountUpdate(w.tasks, t, w'.tasks[t]);
  }

  lemma SpawnKeepsInflight(w: World, phase: Phase, replay: bool)
    requires InflightInv(w) && !Counted(phase)
    ensures InflightInv(Spawn(w, phase, replay))
  {
    OpCountSpawn(w.tasks, Task(phase, replay, []));
  }

  lemma ReconfigureKeepsInflight(w: World, loopRunning: bool)
    requires InflightInv(w)
    ensures InflightInv(StepReconfigure(w, loopRunning))
  {
    SpawnKeepsInflight(Resettle(w), CloserReady, false);
  }

  lemma TaskKeepsInflight(w: World, e: Event, t: nat)
    requires InflightInv(w) && t < |w.tasks|
    requires e in [Acquire(t), EnterOk(t), EnterFail(t)]
    ensures InflightInv(Step(w, e))
  {
    match e {
      case Acquire(_) => AcquireMovesCounter(w, t);
      case EnterOk(_) => EnterEndsMovesCounter(w, t, true);
      case EnterFail(_) => EnterEndsMovesCounter(w, t, false);
    }
    MovedKeepsInflight(w, Step(w, e), t);
  }

  lemma EndKeepsInflight(w: World, e: Event, t: nat)
    requires InflightInv(w) && t < |w.tasks|
    requires e in [OpEnds(t), OpLosesSession(t), CloseEnds(t), CloserStarts(t)]
    ensures InflightInv(Step(w, e))
  {
    match e {
      case OpEnds(_) => OpEndsMovesCounter(w, t, false);
      case OpLosesSession(_) => OpEndsMovesCounter(w, t, true);
      case CloseEnds(_) => CloseEndsMovesCounter(w, t);
      case CloserStarts(_) => CloserStartsMovesCounter(w, t);
    }
    MovedKeepsInflight(w, Step(w, e), t);
  }

  lemma StepKeepsInflight(w: World, e: Event)
    requires InflightInv(w)
    ensures InflightInv(Step(w, e))
  {
    match e
    case SpawnStart => SpawnKeepsInflight(w, EnsureWait(ForStart), false);
    case SpawnRun(replay) => SpawnKeepsInflight(w, EnsureWait(ForRun), replay);
    case SpawnStop => SpawnKeepsInflight(w, StopWait, false);
    case Reconfigure(loopRunning) => ReconfigureKeepsInflight(w, loopRunning);
    case Acquire(t) => if t < |w.tasks| { TaskKeepsInflight(w, e, t); }
    case EnterOk(t) => if t < |w.tasks| { TaskKeepsInflight(w, e, t); }
    case EnterFail(t) => if t < |w.tasks| { TaskKeepsInflight(w, e, t); }
    case OpEnds(t) => if t < |w.tasks| { EndKeepsInflight(w, e, t); }
    case OpLosesSession(t) => if t < |w.tasks| { EndKeepsInflight(w, e, t); }
    case CloseEnds(t) => if t < |w.tasks| { EndKeepsInflight(w, e, t); }
    case CloserStarts(t) => if t < |w.tasks| { EndKeepsInflight(w, e, t); }
    case Tick(_) =>
  }

  lemma {:induction false} IdleMeansNoOp(tasks: seq<Task>)
    requires OpCount(tasks) == 0
    ensures forall t :: 0 <= t < |tasks| ==> !Counted(tasks[t].phase)
  {
    forall t | 0 <= t < |tasks| ensures !Counted(tasks[t].phase) {
      if Counted(tasks[t].phase) {
        OpCountPositive(tasks, t);
      }
    }
  }

  // ---------------------------------------------------------------- sessions of operations

  /** Where a session that an operation in flight was run on can be. */
  ghost predicate OpSession(w: World, s: SessionId) {
    w.conn.toolset == Some(s) || s in w.conn.stale || s in w.past.stopTaken || s in w.past.lost
  }

  /** The live session was detached by nobody, a lost one not by `reconfigure`. */
  ghost predicate DetachedInv(w: World) {
    && (forall s :: s in w.past.lost ==> s in w.past.entered && s !in w.past.displaced)
    && (forall s :: s in w.past.displaced ==> s in w.past.entered)
    && (w.conn.toolset.Some? ==>
          && w.conn.toolset.value in w.past.entered
          && w.conn.toolset.value !in w.past.lost
          && w.conn.toolset.value !in w.past.displaced)
  }

  /** Every session an operation in flight was run on is live or parked, or a stop took it, or it was lost. */
  ghost predicate OpInv(w: World) {
    forall t :: 0 <= t < |w.tasks| && Counted(w.tasks[t].phase) ==>
      forall s :: s in w.tasks[t].runs ==> OpSession(w, s)
  }

  lemma StepKeepsDetached(w: World, e: Event)
    requires LockInv(w) && DetachedInv(w)
    ensures DetachedInv(Step(w, e))
  {}

  /** A step forgets such a session only while no operation is in flight. */
  lemma StepKeepsOpSession(w: World, e: Event, s: SessionId)
    requires LockInv(w) && OpSession(w, s)
    ensures OpSession(Step(w, e), s) || Step(w, e).conn.inflight == 0
  {}

  // ---------------------------------------------------------------- how often an op runs

  ghost predicate RunsOk(task: Task) {
    && |task.runs| <= 2
    && (|task.runs| == 2 ==> task.replay && task.runs[0] != task.runs[1])
  }

  /** `failed` was live once; a session is never live a second time. */
  ghost predicate Gone(w: World, failed: SessionId) {
    failed in w.past.entered && w.conn.toolset != Some(failed)
  }

  ghost predicate TaskRuns(w: World, task: Task) {
    match task.phase
    case EnsureWait(why) => WaiterRuns(w, task.runs, why)
    case Entering(why, _) => WaiterRuns(w, task.runs, why)
    case InOp(s, first) =>
      s in w.past.entered
      && if first.None? then task.runs == [s]
         else task.replay && task.runs == [first.value, s] && first.value != s
    case ReconnectWait(failed) => task.runs == [failed] && failed in w.past.entered
    case ReconnectClosing(failed) => task.runs == [failed] && Gone(w, failed)
    case _ => RunsOk(task)
  }

  ghost predicate WaiterRuns(w: World, runs: seq<SessionId>, why: Purpose) {
    if why.ForReplay? then runs == [why.failed] && Gone(w, why.failed) else runs == []
  }

  ghost predicate RunsInv(w: World) {
    && (w.conn.toolset.Some? ==> w.conn.toolset.value in w.past.entered)
    && (forall t :: 0 <= t < |w.tasks| ==> TaskRuns(w, w.tasks[t]))
  }

  lemma StepKeepsGone(w: World, e: Event, task: Task)
    requires LockInv(w) && TaskRuns(w, task)
    requires w.conn.toolset.Some? ==> w.conn.toolset.value in w.past.entered
    ensures TaskRuns(Step(w, e), task)
    ensures var live := Step(w, e).conn.toolset; live.Some? ==> live.value in Step(w, e).past.entered
  {}

  lemma StepKeepsRuns(w: World, e: Event)
    requires LockInv(w) && RunsInv(w)
    ensures RunsInv(Step(w, e))
  {
    var w' := Step(w, e);
    StepKeepsGone(w, e, Task(Done, false, []));
    forall t | 0 <= t < |w'.tasks| ensures TaskRuns(w', w'.tasks[t]) {
      if t < |w.tasks| {
        if w'.tasks[t] == w.tasks[t] {
          StepKeepsGone(w, e, w.tasks[t]);
        } else {
          StepMovesRuns(w, e, t);
        }
      }
    }
  }

  lemma StepMovesRuns(w: World, e: Event, t: nat)
    requires LockInv(w) && RunsInv(w)
    requires t < |w.tasks| && t < |Step(w, e).tasks| && Step(w, e).tasks[t] != w.tasks[t]
    ensures TaskRuns(Step(w, e), Step(w, e).tasks[t])
  {
    match e
    case Acquire(u) => AcquireMovesRuns(w, t);
    case EnterOk(u) => EnterMovesRuns(w, t, true);
    case EnterFail(u) => EnterMovesRuns(w, t, false);
    case OpEnds(u) => OpEndsMovesRuns(w, t, false);
    case OpLosesSession(u) => OpEndsMovesRuns(w, t, true);
    case CloseEnds(u) => CloseEndsMovesRuns(w, t);
    case CloserStarts(u) => CloserStartsMovesRuns(w, t);
    case _ =>
  }

  lemma OpEndsMovesRuns(w: World, t: nat, connectionError: bool)
    requires RunsInv(w) && t < |w.tasks|
    ensures TaskRuns(StepOpEnds(w, t, connectionError), StepOpEnds(w, t, connectionError).tasks[t])
  {}

  lemma CloseEndsMovesRuns(w: World, t: nat)
    requires RunsInv(w) && t < |w.tasks|
    ensures TaskRuns(StepCloseEnds(w, t), StepCloseEnds(w, t).tasks[t])
  {}

  lemma CloserStartsMovesRuns(w: World, t: nat)
    requires RunsInv(w) && t < |w.tasks|
    ensures TaskRuns(StepCloserStarts(w, t), StepCloserStarts(w, t).tasks[t])
  {}

  lemma EnterMovesRuns(w: World, t: nat, ok: bool)
    requires LockInv(w) && RunsInv(w) && t < |w.tasks|
    ensures TaskRuns(StepEnterEnds(w, t, ok), StepEnterEnds(w, t, ok).tasks[t])
  {}

  lemma AcquireMovesRuns(w: World, t: nat)
    requires LockInv(w) && RunsInv(w) && t < |w.tasks|
    ensures TaskRuns(StepAcquire(w, t), StepAcquire(w, t).tasks[t])
  {}

  // ---------------------------------------------------------------- what operations in flight hold

  /** An operation enters flight with no runs, and a step adds only runs on the live session. */
  ghost predicate RunsOnLive(w: World, w': World, t: nat) {
    t < |w.tasks| && t < |w'.tasks| && w'.tasks[t] != w.tasks[t] && Counted(w'.tasks[t].phase) ==>
      && (Counted(w.tasks[t].phase) || w.tasks[t].runs == [])
      && (forall s :: s in w'.tasks[t].runs ==> s in w.tasks[t].runs || w'.conn.toolset == Some(s))
  }

  lemma AcquireRunsOnLive(w: World, t: nat, u: nat)
    requires RunsInv(w)
    ensures RunsOnLive(w, StepAcquire(w, u), t)
  {}

  lemma EnterEndsRunsOnLive(w: World, t: nat, u: nat, ok: bool)
    requires RunsInv(w)
    ensures RunsOnLive(w, StepEnterEnds(w, u, ok), t)
  {}

  lemma OpEndsRunsOnLive(w: World, t: nat, u: nat, connectionError: bool)
    ensures RunsOnLive(w, StepOpEnds(w, u, connectionError), t)
  {}

  lemma CloseEndsRunsOnLive(w: World, t: nat, u: nat)
    ensures RunsOnLive(w, StepCloseEnds(w, u), t)
  {}

  lemma CloserStartsRunsOnLive(w: World, t: nat, u: nat)
    ensures RunsOnLive(w, StepCloserStarts(w, u), t)
  {}

  lemma StepRunsOnLive(w: World, e: Event, t: nat)
    requires RunsInv(w)
    ensures RunsOnLive(w, Step(w, e), t)
  {
    match e
    case Acquire(u) => AcquireRunsOnLive(w, t, u);
    case EnterOk(u) => EnterEndsRunsOnLive(w, t, u, true);
    case EnterFail(u) => EnterEndsRunsOnLive(w, t, u, false);
    case OpEnds(u) => OpEndsRunsOnLive(w, t, u, false);
    case OpLosesSession(u) => OpEndsRunsOnLive(w, t, u, true);
    case CloseEnds(u) => CloseEndsRunsOnLive(w, t, u);
    case CloserStarts(u) => CloserStartsRunsOnLive(w, t, u);
    case _ =>
  }

  lemma StepKeepsOp(w: World, e: Event)
    requires LockInv(w) && InflightInv(w) && RunsInv(w) && OpInv(w)
    ensures OpInv(Step(w, e))
  {
    var w' := Step(w, e);
    StepKeepsInflight(w, e);
    if w'.conn.inflight == 0 {
      IdleMeansNoOp(w'.tasks);
    } else {
      forall t, s | 0 <= t < |w'.tasks| && Counted(w'.tasks[t].phase) && s in w'.tasks[t].runs
        ensures OpSession(w', s)
      {
        HeldStays(w, e, t, s);
      }
    }
  }

  lemma HeldStays(w: World, e: Event, t: nat, s: SessionId)
    requires LockInv(w) && RunsInv(w) && OpInv(w) && Step(w, e).conn.inflight != 0
    requires t < |Step(w, e).tasks| && Counted(Step(w, e).tasks[t].phase) && s in Step(w, e).tasks[t].runs
    ensures OpSession(Step(w, e), s)
  {
    if t < |w.tasks| {
      StepRunsOnLive(w, e, t);
      if s in w.tasks[t].runs {
        StepKeepsOpSession(w, e, s);
      }
    }
  }

  // ---------------------------------------------------------------- superseded sessions get a closer

  predicate IsCloser(phase: Phase) {
    phase.CloserReady? || phase.ClosingStale?
  }

  ghost predicate HasCloser(tasks: seq<Task>) {
    exists t :: 0 <= t < |tasks| && IsCloser(tasks[t].phase)
  }

  ghost predicate CloserInv(w: World) {
    !w.past.noLoop && w.conn.stale != [] ==> w.conn.inflight > 0 || HasCloser(w.tasks)
  }

  /** A closer only gives up when nothing is parked or an operation is in flight. */
  lemma CloserLoops(w: World, e: Event, t: nat)
    requires t < |w.tasks| && IsCloser(w.tasks[t].phase) && w.conn.inflight >= 0
    ensures t < |Step(w, e).tasks|
    ensures IsCloser(Step(w, e).tasks[t].phase)
         || Step(w, e).conn.stale == [] || Step(w, e).conn.inflight > 0
  {}

  /** Sessions become parked, or operations stop, only with a closer at hand. */
  lemma ParkingNeedsCloser(w: World, e: Event)
    requires w.conn.stale == [] || w.conn.inflight > 0
    requires w.conn.inflight >= 0
    ensures !Step(w, e).past.noLoop && Step(w, e).conn.stale != [] ==>
              Step(w, e).conn.inflight > 0 || HasCloser(Step(w, e).tasks)
  {
    var w' := Step(w, e);
    if |w'.tasks| > |w.tasks| {
      assert w'.tasks[|w.tasks|].phase.CloserReady? || w'.conn.inflight > 0 || w'.conn.stale == [];
    } else if !e.Reconfigure? && !e.Tick? && e.t < |w.tasks| {
      assert IsCloser(w'.tasks[e.t].phase) || w'.conn.inflight > 0 || w'.conn.stale == [];
    }
  }

  lemma StepKeepsCloser(w: World, e: Event)
    requires InflightInv(w) && CloserInv(w)
    ensures CloserInv(Step(w, e))
  {
    if w.conn.stale == [] || w.conn.inflight > 0 {
      ParkingNeedsCloser(w, e);
    } else if HasCloser(w.tasks) {
      StepKeepsInflight(w, e);
      var t :| 0 <= t < |w.tasks| && IsCloser(w.tasks[t].phase);
      CloserLoops(w, e, t);
    } else {
      NoLoopForever(w, e);
    }
  }

  lemma NoLoopForever(w: World, e: Event)
    requires w.past.noLoop
    ensures Step(w, e).past.noLoop
  {}

  // ---------------------------------------------------------------- settings of the live session

  ghost predicate BuiltOk(w: World, s: SessionId) {
    && s in w.past.built
    && w.past.built[s] <= w.conn.settings
    && (w.past.built[s] == w.conn.settings <==> s !in w.past.raced)
  }

  ghost predicate SettingsInv(w: World) {
    && (w.conn.toolset.Some? ==> BuiltOk(w, w.conn.toolset.value))
    && (forall t :: 0 <= t < |w.tasks| && w.tasks[t].phase.Entering? ==>
          BuiltOk(w, w.tasks[t].phase.session))
    && (forall s :: s in w.past.raced ==> s < w.nextSession)
  }

  lemma StepKeepsSettings(w: World, e: Event)
    requires LockInv(w) && SettingsInv(w)
    ensures SettingsInv(Step(w, e))
  {
    match e
    case SpawnStart => SpawnKeepsSettings(w, EnsureWait(ForStart), false);
    case SpawnRun(replay) => SpawnKeepsSettings(w, EnsureWait(ForRun), replay);
    case SpawnStop => SpawnKeepsSettings(w, StopWait, false);
    case Acquire(t) => AcquireKeepsSettings(w, t);
    case EnterOk(t) => EnterKeepsSettings(w, t, true);
    case EnterFail(t) => EnterKeepsSettings(w, t, false);
    case Reconfigure(loopRunning) => ReconfigureKeepsSettings(w, loopRunning);
    case OpEnds(t) => OpEndsKeepsSettings(w, t, false);
    case OpLosesSession(t) => OpEndsKeepsSettings(w, t, true);
    case CloseEnds(t) => CloseEndsKeepsSettings(w, t);
    case CloserStarts(t) => CloserStartsKeepsSettings(w, t);
    case Tick(_) =>
  }

  lemma SpawnKeepsSettings(w: World, phase: Phase, replay: bool)
    requires SettingsInv(w) && !phase.Entering?
    ensures SettingsInv(Spawn(w, phase, replay))
  {}

  lemma OpEndsKeepsSettings(w: World, t: nat, connectionError: bool)
    requires SettingsInv(w)
    ensures SettingsInv(StepOpEnds(w, t, connectionError))
  {}

  lemma CloseEndsKeepsSettings(w: World, t: nat)
    requires SettingsInv(w)
    ensures SettingsInv(StepCloseEnds(w, t))
  {}

  lemma CloserStartsKeepsSettings(w: World, t: nat)
    requires SettingsInv(w)
    ensures SettingsInv(StepCloserStarts(w, t))
  {}

  lemma ReconfigureKeepsSettings(w: World, loopRunning: bool)
    requires LockInv(w) && SettingsInv(w)
    ensures SettingsInv(StepReconfigure(w, loopRunning))
  {}

  lemma EnterKeepsSettings(w: World, t: nat, ok: bool)
    requires LockInv(w) && SettingsInv(w)
    ensures SettingsInv(StepEnterEnds(w, t, ok))
  {}

  lemma AcquireKeepsSettings(w: World, t: nat)
    requires LockInv(w) && SettingsInv(w)
    ensures SettingsInv(StepAcquire(w, t))
  {}

  // ---------------------------------------------------------------- backoff

  /** The clock time a streak of `n` failures takes at least: 5 * (2^(n-1) - 1), then 300 each. */
  function Bound(n: nat): real
    requires n >= 1
  {
    if n <= 7 then BACKOFF_BASE * (Pow2(n - 1) - 1) as real else 315.0 + 300.0 * (n - 7) as real
  }

  /** The `i`-th failure of a streak (from 0) keeps its distance from the one before it. */
  ghost predicate Spaced(times: seq<real>) {
    forall i :: 0 < i < |times| && i <= FLOAT_EXPONENT_LIMIT ==>
      times[i] >= times[i - 1] + Backoff(i)
  }

  ghost predicate BackoffInv(w: World) {
    && |w.past.failTimes| == w.conn.failures
    && (w.conn.failures == 0 ==> w.conn.retryAt == 0.0)
    && w.clock >= 0.0
    && (!w.past.bypassed ==>
          && Spaced(w.past.failTimes)
          && (0 < w.conn.failures <= FLOAT_EXPONENT_LIMIT ==>
                w.conn.retryAt == w.past.failTimes[w.conn.failures - 1] + Backoff(w.conn.failures))
          && (w.lock.Some? && w.conn.failures <= FLOAT_EXPONENT_LIMIT ==> w.clock >= w.conn.retryAt))
  }

  lemma StepKeepsBackoff(w: World, e: Event)
    requires LockInv(w) && BackoffInv(w)
    ensures BackoffInv(Step(w, e))
  {
    match e
    case Acquire(t) => AcquireKeepsBackoff(w, t);
    case EnterOk(t) => EnterEndsKeepsBackoff(w, t, true);
    case EnterFail(t) => EnterEndsKeepsBackoff(w, t, false);
    case Reconfigure(loopRunning) => ReconfigureKeepsBackoff(w, loopRunning);
    case OpEnds(t) => OpEndsKeepsBackoff(w, t, false);
    case OpLosesSession(t) => OpEndsKeepsBackoff(w, t, true);
    case CloseEnds(t) => CloseEndsKeepsBackoff(w, t);
    case CloserStarts(t) => CloserStartsKeepsBackoff(w, t);
    case _ =>
  }

  /** A step that leaves the streak alone, takes no lock and only moves the clock forward. */
  lemma StreakUntouched(w: World, w': World)
    requires BackoffInv(w)
    requires w'.past.failTimes == w.past.failTimes && w'.past.bypassed == w.past.bypassed
    requires w'.conn.failures == w.conn.failures && w'.conn.retryAt == w.conn.retryAt
    requires w'.clock >= w.clock && (w'.lock == w.lock || w'.lock.None?)
    ensures BackoffInv(w')
  {}

  lemma EnsureReturnsUntouched(w: World, t: nat, why: Purpose, live: Option<SessionId>)
    requires t < |w.tasks|
    ensures var w' := EnsureReturns(w, t, why, live);
            w'.conn.failures == w.conn.failures && w'.conn.retryAt == w.conn.retryAt && w'.clock == w.clock
  {}

  lemma BeginKeepsBackoff(w: World, t: nat, why: Purpose)
    requires BackoffInv(w) && w.lock.None? && t < |w.tasks|
    ensures BackoffInv(BeginAttempt(w, t, why))
  {}

  lemma AcquireKeepsBackoff(w: World, t: nat)
    requires BackoffInv(w)
    ensures BackoffInv(StepAcquire(w, t))
  {
    var w' := StepAcquire(w, t);
    if w.lock.None? && t < |w.tasks| && w.tasks[t].phase.EnsureWait? {
      var why := w.tasks[t].phase.why;
      if w.conn.toolset.None? && MayAttempt(w.conn, why.ForReplay?, w.clock) {
        BeginKeepsBackoff(w, t, why);
      } else {
        EnsureReturnsUntouched(w, t, why, w.conn.toolset);
        StreakUntouched(w, w');
      }
    } else {
      StreakUntouched(w, w');
    }
  }

  lemma EnteredKeepsBackoff(w: World, s: SessionId)
    requires BackoffInv(w)
    ensures BackoffInv(Entered(w, s))
  {}

  lemma FailedKeepsBackoff(w: World)
    requires BackoffInv(w) && w.lock.Some?
    ensures BackoffInv(Failed(w))
  {}

  lemma EnterEndsKeepsBackoff(w: World, t: nat, ok: bool)
    requires LockInv(w) && BackoffInv(w)
    ensures BackoffInv(StepEnterEnds(w, t, ok))
  {
    if t < |w.tasks| && w.tasks[t].phase.Entering? {
      var Entering(why, s) := w.tasks[t].phase;
      var w1 := if ok then Entered(w, s) else Failed(w);
      EnteredKeepsBackoff(w, s);
      FailedKeepsBackoff(w);
      EnsureReturnsUntouched(w1, t, why, if ok then Some(s) else None);
      StreakUntouched(w1, StepEnterEnds(w, t, ok));
    }
  }

  lemma ReconfigureKeepsBackoff(w: World, loopRunning: bool)
    requires BackoffInv(w)
    ensures BackoffInv(StepReconfigure(w, loopRunning))
  {}

  lemma OpEndsKeepsBackoff(w: World, t: nat, connectionError: bool)
    requires BackoffInv(w)
    ensures BackoffInv(StepOpEnds(w, t, connectionError))
  {
    StreakUntouched(w, StepOpEnds(w, t, connectionError));
  }

  lemma CloseEndsKeepsBackoff(w: World, t: nat)
    requires BackoffInv(w)
    ensures BackoffInv(StepCloseEnds(w, t))
  {
    StreakUntouched(w, StepCloseEnds(w, t));
  }

  lemma CloserStartsKeepsBackoff(w: World, t: nat)
    requires BackoffInv(w)
    ensures BackoffInv(StepCloserStarts(w, t))
  {
    StreakUntouched(w, StepCloserStarts(w, t));
  }
}
