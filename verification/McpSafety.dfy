/** What holds in every run of the shared MCP connection: the theorems about module `McpRuns`. */
module McpSafety {
  import opened Options
  import opened McpConnection
  import opened McpRuns

  ghost predicate Inv(w: World) {
    && LockInv(w) && OwnerInv(w) && InflightInv(w) && DetachedInv(w) && OpInv(w) && RunsInv(w)
    && CloserInv(w) && SettingsInv(w) && BackoffInv(w)
  }

  lemma StepKeepsInv(w: World, e: Event)
    requires Inv(w)
    ensures Inv(Step(w, e))
  {
    StepKeepsLock(w, e);
    forall s ensures Places(Step(w, e), s) == One(s in Step(w, e).past.entered) {
      StepPlaces(w, e, s);
    }
    StepKeepsInflight(w, e);
    StepKeepsDetached(w, e);
    StepKeepsOp(w, e);
    StepKeepsRuns(w, e);
    StepKeepsCloser(w, e);
    StepKeepsSettings(w, e);
    StepKeepsBackoff(w, e);
  }

  /** The invariant holds after any events in any order, from the freshly built object on. */
  lemma {:induction false} RunKeepsInv(w: World, events: seq<Event>)
    requires Inv(w)
    ensures Inv(Run(w, events))
    decreases |events|
  {
    if events != [] {
      StepKeepsInv(w, events[0]);
      RunKeepsInv(Step(w, events[0]), events[1..]);
    }
  }

  lemma {:induction false} Reachable(events: seq<Event>)
    ensures Inv(Run(INITIAL, events))
  {
    RunKeepsInv(INITIAL, events);
  }

  // ---------------------------------------------------------------- session ownership

  /** The places a session can be in. */
  datatype Place =
    | Live
    | Parked(i: nat)             // at position i of _stale
    | Handed(t: nat, i: nat)     // i-th of the sessions task t must close
    | Closed(i: nat)             // the i-th close that ended

  predicate At(w: World, s: SessionId, p: Place) {
    match p
    case Live => w.conn.toolset == Some(s)
    case Parked(i) => i < |w.conn.stale| && w.conn.stale[i] == s
    case Handed(t, i) =>
      t < |w.tasks| && i < |Held(w.tasks[t].phase)| && Held(w.tasks[t].phase)[i] == s
    case Closed(i) => i < |w.past.closed| && w.past.closed[i] == s
  }

  lemma {:induction false} OccursFinds(xs: seq<SessionId>, s: SessionId) returns (i: nat)
    requires Occurs(xs, s) > 0
    ensures i < |xs| && xs[i] == s
  {
    i := |xs| - 1;
    if xs[i] != s {
      i := OccursFinds(xs[..i], s);
    }
  }

  lemma {:induction false} OccursAt(xs: seq<SessionId>, s: SessionId, i: nat)
    requires i < |xs| && xs[i] == s
    ensures Occurs(xs, s) >= 1
  {
    if i < |xs| - 1 {
      OccursAt(xs[..|xs| - 1], s, i);
    }
  }

  lemma {:induction false} OccursTwice(xs: seq<SessionId>, s: SessionId, i: nat, j: nat)
    requires i < j < |xs| && xs[i] == s && xs[j] == s
    ensures Occurs(xs, s) >= 2
  {
    if j < |xs| - 1 {
      OccursTwice(xs[..|xs| - 1], s, i, j);
    } else {
      OccursAt(xs[..|xs| - 1], s, i);
    }
  }

  lemma {:induction false} HeldFinds(tasks: seq<Task>, s: SessionId) returns (t: nat)
    requires HeldCount(tasks, s) > 0
    ensures t < |tasks| && Occurs(Held(tasks[t].phase), s) > 0
  {
    t := |tasks| - 1;
    if Occurs(Held(tasks[t].phase), s) == 0 {
      t := HeldFinds(tasks[..t], s);
    }
  }

  lemma {:induction false} HeldAt(tasks: seq<Task>, s: SessionId, t: nat)
    requires t < |tasks|
    ensures HeldCount(tasks, s) >= Occurs(Held(tasks[t].phase), s)
  {
    if t < |tasks| - 1 {
      HeldAt(tasks[..|tasks| - 1], s, t);
    }
  }

  lemma {:induction false} HeldTwice(tasks: seq<Task>, s: SessionId, t: nat, u: nat)
    requires t < u < |tasks|
    ensures HeldCount(tasks, s) >= Occurs(Held(tasks[t].phase), s) + Occurs(Held(tasks[u].phase), s)
  {
    if u < |tasks| - 1 {
      HeldTwice(tasks[..|tasks| - 1], s, t, u);
    } else {
      HeldAt(tasks[..|tasks| - 1], s, t);
    }
  }

  lemma {:induction false} PlaceCounts(w: World, s: SessionId, p: Place)
    requires At(w, s, p)
    ensures p.Parked? ==> Occurs(w.conn.stale, s) >= 1
    ensures p.Handed? ==> HeldCount(w.tasks, s) >= 1
    ensures p.Closed? ==> Occurs(w.past.closed, s) >= 1
  {
    match p
    case Live =>
    case Parked(i) => OccursAt(w.conn.stale, s, i);
    case Handed(t, i) => OccursAt(Held(w.tasks[t].phase), s, i); HeldAt(w.tasks, s, t);
    case Closed(i) => OccursAt(w.past.closed, s, i);
  }

  lemma TwoPlacesCount(w: World, s: SessionId, p: Place, q: Place)
    requires At(w, s, p) && At(w, s, q) && p != q
    ensures Places(w, s) >= 2
  {
    PlaceCounts(w, s, p);
    PlaceCounts(w, s, q);
    match (p, q)
    case (Parked(i), Parked(j)) => OccursTwice(w.conn.stale, s, Min(i, j), Max(i, j));
    case (Closed(i), Closed(j)) => OccursTwice(w.past.closed, s, Min(i, j), Max(i, j));
    case (Handed(t, i), Handed(u, j)) =>
      if t == u {
        OccursTwice(Held(w.tasks[t].phase), s, Min(i, j), Max(i, j));
        HeldAt(w.tasks, s, t);
      } else {
        OccursAt(Held(w.tasks[t].phase), s, i);
        OccursAt(Held(w.tasks[u].phase), s, j);
        HeldTwice(w.tasks, s, Min(t, u), Max(t, u));
      }
    case _ =>
  }

  function Min(i: nat, j: nat): nat { if i < j then i else j }
  function Max(i: nat, j: nat): nat { if i < j then j else i }

  /**
   * In every reachable state every session ever entered is in exactly one place: live, parked,
   * handed to one closer, or closed.  So it is closed at most once and never lost.
   */
  lemma {:induction false} SessionOwnership(events: seq<Event>, s: SessionId)
    requires s in Run(INITIAL, events).past.entered
    ensures exists p :: At(Run(INITIAL, events), s, p)
    ensures forall p, q :: At(Run(INITIAL, events), s, p) && At(Run(INITIAL, events), s, q) ==> p == q
  {
    Reachable(events);
    var w := Run(INITIAL, events);
    assert Places(w, s) == 1;
    if w.conn.toolset == Some(s) {
      assert At(w, s, Live);
    } else if Occurs(w.conn.stale, s) > 0 {
      var i := OccursFinds(w.conn.stale, s);
      assert At(w, s, Parked(i));
    } else if Occurs(w.past.closed, s) > 0 {
      var i := OccursFinds(w.past.closed, s);
      assert At(w, s, Closed(i));
    } else {
      var t := HeldFinds(w.tasks, s);
      var i := OccursFinds(Held(w.tasks[t].phase), s);
      assert At(w, s, Handed(t, i));
    }
    forall p, q | At(w, s, p) && At(w, s, q) ensures p == q {
      if p != q {
        TwoPlacesCount(w, s, p, q);
      }
    }
  }

  /** A session that is not live any more never becomes live again. */
  lemma {:induction false} NeverLiveAgain(w: World, events: seq<Event>, s: SessionId)
    requires Inv(w) && s in w.past.entered && w.conn.toolset != Some(s)
    ensures Run(w, events).conn.toolset != Some(s)
    decreases |events|
  {
    if events != [] {
      StepKeepsInv(w, events[0]);
      StepKeepsGone(w, events[0], Task(ReconnectClosing(s), false, [s]));
      NeverLiveAgain(Step(w, events[0]), events[1..], s);
    }
  }

  // ---------------------------------------------------------------- stop

  predicate Quiet(tasks: seq<Task>) {
    forall t :: 0 <= t < |tasks| ==> tasks[t].phase.Done?
  }

  lemma {:induction false} QuietHoldsNothing(tasks: seq<Task>, s: SessionId)
    requires Quiet(tasks)
    ensures HeldCount(tasks, s) == 0
  {
    if tasks != [] {
      QuietHoldsNothing(tasks[..|tasks| - 1], s);
    }
  }

  function Repeat(e: Event, n: nat): seq<Event> {
    seq(n, _ => e)
  }

  lemma ClosesFirst(w: World, t: nat, queue: seq<SessionId>)
    requires t < |w.tasks| && queue != [] && w.tasks[t].phase == StopClosing(queue)
    ensures var w1 := Step(w, CloseEnds(t));
            && w1.conn == w.conn && w1.past.entered == w.past.entered && w1.lock == w.lock
            && w1.past.closed == w.past.closed + [queue[0]]
            && |w1.tasks| == |w.tasks| && w1.tasks == w.tasks[t := w1.tasks[t]]
            && w1.tasks[t].phase == if queue[1..] == [] then Done else StopClosing(queue[1..])
  {}

  /** Task `t` went from handing over `queue` to its end, and nothing else changed. */
  ghost predicate ClosedBy(w: World, w': World, t: nat, queue: seq<SessionId>)
    requires t < |w.tasks|
  {
    && w'.conn == w.conn && w'.past.entered == w.past.entered && w'.lock == w.lock
    && w'.past.closed == w.past.closed + queue
    && |w'.tasks| == |w.tasks| && w'.tasks == w.tasks[t := w'.tasks[t]]
    && w'.tasks[t].phase.Done?
  }

  lemma ClosesRest(w: World, w1: World, w': World, t: nat, queue: seq<SessionId>)
    requires t < |w.tasks| == |w1.tasks| && queue != [] && ClosedBy(w1, w', t, queue[1..])
    requires w1.conn == w.conn && w1.past.entered == w.past.entered && w1.lock == w.lock
    requires w1.past.closed == w.past.closed + [queue[0]] && w1.tasks == w.tasks[t := w1.tasks[t]]
    ensures ClosedBy(w, w', t, queue)
  {
    assert queue == [queue[0]] + queue[1..];
  }

  lemma {:induction false} ClosesQueue(w: World, t: nat, queue: seq<SessionId>)
    requires t < |w.tasks| && w.tasks[t].phase == if queue == [] then Done else StopClosing(queue)
    ensures ClosedBy(w, Run(w, Repeat(CloseEnds(t), |queue|)), t, queue)
    decreases |queue|
  {
    var events := Repeat(CloseEnds(t), |queue|);
    if queue != [] {
      var w1 := Step(w, CloseEnds(t));
      ClosesFirst(w, t, queue);
      assert events[1..] == Repeat(CloseEnds(t), |queue[1..]|);
      ClosesQueue(w1, t, queue[1..]);
      ClosesRest(w, w1, Run(w1, events[1..]), t, queue);
    } else {
      assert w.past.closed + queue == w.past.closed && Run(w, events) == w;
    }
  }

  lemma {:induction false} RunSplits(w: World, a: seq<Event>, b: seq<Event>)
    ensures Run(w, a + b) == Run(Run(w, a), b)
    decreases |a|
  {
    if a == [] {
      assert a + b == b;
    } else {
      assert (a + b)[1..] == a[1..] + b;
      RunSplits(Step(w, a[0]), a[1..], b);
    }
  }

  lemma {:induction false} StopTakesAll(w: World)
    requires Inv(w) && Quiet(w.tasks)
    ensures var n := |w.tasks|;
            var w1 := Run(w, [SpawnStop, Acquire(n)]);
            && w1.conn == Emptied(w.conn) && w1.past.entered == w.past.entered
            && w1.past.closed == w.past.closed
            && |w1.tasks| == n + 1 && w1.tasks[..n] == w.tasks
            && w1.tasks[n].phase == if ToClose(w.conn) == [] then Done else StopClosing(ToClose(w.conn))
  {
    var n := |w.tasks|;
    assert w.lock.None?;
    var w0 := Step(w, SpawnStop);
    var start := [SpawnStop, Acquire(n)];
    assert start[1..] == [Acquire(n)] && start[1..][1..] == [];
    assert Run(w, start) == Run(w0, start[1..]) == Step(w0, Acquire(n));
  }

  /** Neither an operation nor a `start`: a stop, a closer, or nothing any more. */
  predicate OnlyCloses(phase: Phase) {
    phase.StopWait? || phase.StopClosing? || phase.CloserReady? || phase.ClosingStale? || phase.Done?
  }

  /** Nothing is live or parked, and nothing is running that could change this. */
  ghost predicate Drained(w: World) {
    && w.conn.toolset.None? && w.conn.stale == []
    && forall t :: 0 <= t < |w.tasks| ==> OnlyCloses(w.tasks[t].phase)
  }

  lemma StepKeepsDrained(w: World, e: Event)
    requires Drained(w) && !e.SpawnRun? && !e.SpawnStart?
    ensures Drained(Step(w, e))
  {}

  lemma {:induction false} RunKeepsDrained(w: World, events: seq<Event>)
    requires Drained(w) && forall i :: 0 <= i < |events| ==> !events[i].SpawnRun? && !events[i].SpawnStart?
    ensures Drained(Run(w, events))
    decreases |events|
  {
    if events != [] {
      StepKeepsDrained(w, events[0]);
      RunKeepsDrained(Step(w, events[0]), events[1..]);
    }
  }

  /**
   * A `stop` that gets the lock while no operation and no `start` is running, whatever happened
   * before, leaves nothing live or parked from then on, and every session ever entered is closed once
   * all tasks have ended; reconfigures, closers and other stops may run at any time, before and after.
   */
  lemma {:induction false} StopLeavesNothingOpen(before: seq<Event>, n: nat, after: seq<Event>)
    requires var w := Run(INITIAL, before);
             && n < |w.tasks| && w.tasks[n].phase.StopWait?
             && forall t :: 0 <= t < |w.tasks| ==> OnlyCloses(w.tasks[t].phase)
    requires forall i :: 0 <= i < |after| ==> !after[i].SpawnRun? && !after[i].SpawnStart?
    ensures var w' := Run(Step(Run(INITIAL, before), Acquire(n)), after);
            && w'.conn.toolset.None? && w'.conn.stale == []
            && (Quiet(w'.tasks) ==> forall s :: s in w'.past.entered ==> s in w'.past.closed)
  {
    Reachable(before);
    var w := Run(INITIAL, before);
    var w1 := Step(w, Acquire(n));
    assert w.lock.None?;
    StepKeepsInv(w, Acquire(n));
    RunKeepsInv(w1, after);
    assert Drained(w1);
    RunKeepsDrained(w1, after);
    if Quiet(Run(w1, after).tasks) {
      AllClosed(Run(w1, after));
    }
  }

  /** Such a `stop` can end: by its own steps all it took gets closed. */
  lemma {:induction false} StopDrains(w: World)
    requires Inv(w) && Quiet(w.tasks)
    ensures var n := |w.tasks|;
            var w' := Run(w, [SpawnStop, Acquire(n)] + Repeat(CloseEnds(n), |ToClose(w.conn)|));
            Quiet(w'.tasks) && w'.conn.toolset.None? && w'.conn.stale == []
  {
    var (n, queue) := (|w.tasks|, ToClose(w.conn));
    var start := [SpawnStop, Acquire(n)];
    StopTakesAll(w);
    RunSplits(w, start, Repeat(CloseEnds(n), |queue|));
    ClosesQueue(Run(w, start), n, queue);
    var w' := Run(w, start + Repeat(CloseEnds(n), |queue|));
    forall t | 0 <= t < |w'.tasks| ensures w'.tasks[t].phase.Done? {
      assert t < n ==> w'.tasks[t] == Run(w, start).tasks[..n][t];
    }
  }

  lemma AllClosed(w: World)
    requires Inv(w) && Quiet(w.tasks) && w.conn.toolset.None? && w.conn.stale == []
    ensures forall s :: s in w.past.entered ==> s in w.past.closed
  {
    forall s | s in w.past.entered ensures s in w.past.closed {
      QuietHoldsNothing(w.tasks, s);
      assert Places(w, s) == 1;
      var i := OccursFinds(w.past.closed, s);
    }
  }

  // ---------------------------------------------------------------- superseded sessions

  /**
   * While an operation is in flight, running or reconnecting, a session it was run on that
   * `reconfigure` displaced stays parked: no closer has it and it is not closed, unless a `stop` took
   * it.
   */
  lemma {:induction false} DisplacedSessionStaysOpen(events: seq<Event>, t: nat, s: SessionId)
    requires t < |Run(INITIAL, events).tasks|
    requires Counted(Run(INITIAL, events).tasks[t].phase) && s in Run(INITIAL, events).tasks[t].runs
    requires s in Run(INITIAL, events).past.displaced && s !in Run(INITIAL, events).past.stopTaken
    ensures s in Run(INITIAL, events).conn.stale
    ensures s !in Run(INITIAL, events).past.closed
    ensures forall u :: 0 <= u < |Run(INITIAL, events).tasks| ==>
              s !in Held(Run(INITIAL, events).tasks[u].phase)
  {
    Reachable(events);
    var w := Run(INITIAL, events);
    var i: nat :| i < |w.conn.stale| && w.conn.stale[i] == s;
    assert At(w, s, Parked(i));
    SessionOwnership(events, s);
    if s in w.past.closed {
      var j: nat :| j < |w.past.closed| && w.past.closed[j] == s;
      assert At(w, s, Closed(j));
    }
    forall u | 0 <= u < |w.tasks| ensures s !in Held(w.tasks[u].phase) {
      if s in Held(w.tasks[u].phase) {
        var j: nat :| j < |Held(w.tasks[u].phase)| && Held(w.tasks[u].phase)[j] == s;
        assert At(w, s, Handed(u, j));
      }
    }
  }

  /**
   * Parked sessions are never forgotten: an operation is in flight (and will look at them), or a
   * closer is scheduled or running, as long as every `reconfigure` ran inside the event loop.
   */
  lemma {:induction false} ParkedSessionsHaveACloser(events: seq<Event>)
    requires forall i :: 0 <= i < |events| ==> events[i] != Reconfigure(false)
    requires Run(INITIAL, events).conn.stale != []
    ensures exists t :: 0 <= t < |Run(INITIAL, events).tasks|
              && (Counted(Run(INITIAL, events).tasks[t].phase)
                  || IsCloser(Run(INITIAL, events).tasks[t].phase))
  {
    Reachable(events);
    var w := Run(INITIAL, events);
    InsideLoop(INITIAL, events);
    if w.conn.inflight > 0 {
      var t := SomeCounted(w.tasks);
    }
  }

  lemma {:induction false} InsideLoop(w: World, events: seq<Event>)
    requires !w.past.noLoop
    requires forall i :: 0 <= i < |events| ==> events[i] != Reconfigure(false)
    ensures !Run(w, events).past.noLoop
    decreases |events|
  {
    if events != [] {
      StepInsideLoop(w, events[0]);
      InsideLoop(Step(w, events[0]), events[1..]);
    }
  }

  lemma StepInsideLoop(w: World, e: Event)
    requires !w.past.noLoop && e != Reconfigure(false)
    ensures !Step(w, e).past.noLoop
  {}

  lemma {:induction false} SomeCounted(tasks: seq<Task>) returns (t: nat)
    requires OpCount(tasks) > 0
    ensures t < |tasks| && Counted(tasks[t].phase)
  {
    t := |tasks| - 1;
    if !Counted(tasks[t].phase) {
      t := SomeCounted(tasks[..t]);
    }
  }

  // ---------------------------------------------------------------- at most one replay

  lemma TaskRunsBound(w: World, task: Task)
    requires TaskRuns(w, task)
    ensures RunsOk(task)
  {}

  /**
   * A tool call runs at most once, whatever happens to its session; a listing runs at most twice,
   * and its second run is never on the session that was lost.
   */
  lemma {:induction false} CallsAreNotReplayed(events: seq<Event>, t: nat)
    requires t < |Run(INITIAL, events).tasks|
    ensures var task := Run(INITIAL, events).tasks[t];
            && |task.runs| <= (if task.replay then 2 else 1)
            && (|task.runs| == 2 ==> task.runs[0] != task.runs[1])
  {
    Reachable(events);
    TaskRunsBound(Run(INITIAL, events), Run(INITIAL, events).tasks[t]);
  }

  // ---------------------------------------------------------------- settings of the live session

  /**
   * `reconfigure` promises that the next operation connects with the new settings.  The live
   * session was built from the current settings exactly when no `reconfigure` ran during its own
   * `__aenter__`.
   */
  lemma {:induction false} LiveSessionIsCurrentIffNotRaced(events: seq<Event>)
    requires Run(INITIAL, events).conn.toolset.Some?
    ensures var w := Run(INITIAL, events);
            var s := w.conn.toolset.value;
            s in w.past.built && (w.past.built[s] == w.conn.settings <==> s !in w.past.raced)
  {
    Reachable(events);
  }

  /** A run in which the live session keeps outdated settings although nothing is running. */
  lemma RacedReconfigureExample()
    ensures var w := Run(INITIAL, [SpawnStart, Acquire(0), Reconfigure(true), EnterOk(0)]);
            && Quiet(w.tasks) && w.conn.toolset == Some(0) && w.conn.settings == 1
            && w.past.built == map[0 := 0]
  {
    var w1 := Step(INITIAL, SpawnStart);
    var w2 := Step(w1, Acquire(0));
    var w3 := Step(w2, Reconfigure(true));
    var w4 := Step(w3, EnterOk(0));
    assert w2.tasks == [Task(Entering(ForStart, 0), false, [])];
    assert w4.tasks == [Task(Done, false, [])];
    var events := [SpawnStart, Acquire(0), Reconfigure(true), EnterOk(0)];
    RunSplits(INITIAL, events[..1], events[1..]);
    assert events[1..] == [Acquire(0), Reconfigure(true), EnterOk(0)];
    assert events[1..][1..] == [Reconfigure(true), EnterOk(0)];
    assert events[1..][1..][1..] == [EnterOk(0)];
    assert Run(INITIAL, events) == w4;
  }

  // ---------------------------------------------------------------- backoff

  lemma BoundGrows(n: nat)
    requires n >= 1
    ensures Bound(n) + Backoff(n) == Bound(n + 1)
  {
    assert Pow2(0) == 1 && Pow2(1) == 2 && Pow2(2) == 4 && Pow2(3) == 8;
    assert Pow2(4) == 16 && Pow2(5) == 32 && Pow2(6) == 64;
    if n > 7 {
      PowGrows(6, n - 1);
    }
  }

  lemma {:induction false} PowGrows(i: nat, j: nat)
    requires i <= j
    ensures Pow2(i) <= Pow2(j)
  {
    if i < j {
      PowGrows(i, j - 1);
    }
  }

  lemma {:induction false} SpacedBound(times: seq<real>, n: nat)
    requires Spaced(times) && 1 <= n <= |times| && n <= FLOAT_EXPONENT_LIMIT + 1
    ensures times[n - 1] - times[0] >= Bound(n)
  {
    if n > 1 {
      SpacedBound(times, n - 1);
      BoundGrows(n - 1);
    } else {
      assert Pow2(0) == 1;
    }
  }

  /**
   * Retry backoff: in a streak of connect failures none of which was forced into the backoff
   * window, the n-th failure comes at least `Bound(n)` seconds after the first, for n up to 1025.
   */
  lemma {:induction false} BackoffBound(events: seq<Event>, n: nat)
    requires !Run(INITIAL, events).past.bypassed
    requires 1 <= n <= |Run(INITIAL, events).past.failTimes| && n <= 1025
    ensures var times := Run(INITIAL, events).past.failTimes; times[n - 1] - times[0] >= Bound(n)
  {
    Reachable(events);
    SpacedBound(Run(INITIAL, events).past.failTimes, n);
  }

  /** No attempt is forced: no operation replaces a lost session. */
  ghost predicate Unforced(w: World) {
    && !w.past.bypassed
    && forall t :: 0 <= t < |w.tasks| ==>
         && !w.tasks[t].phase.ReconnectWait? && !w.tasks[t].phase.ReconnectClosing?
         && (w.tasks[t].phase.EnsureWait? || w.tasks[t].phase.Entering? ==> !w.tasks[t].phase.why.ForReplay?)
  }

  lemma AcquireKeepsUnforced(w: World, t: nat)
    requires Unforced(w)
    ensures Unforced(StepAcquire(w, t))
  {}

  lemma EnterEndsKeepsUnforced(w: World, t: nat, ok: bool)
    requires Unforced(w)
    ensures Unforced(StepEnterEnds(w, t, ok))
  {}

  lemma EndKeepsUnforced(w: World, t: nat)
    requires Unforced(w)
    ensures Unforced(StepOpEnds(w, t, false)) && Unforced(StepCloserStarts(w, t))
  {}

  lemma CloseEndsKeepsUnforced(w: World, t: nat)
    requires Unforced(w)
    ensures Unforced(StepCloseEnds(w, t))
  {}

  lemma StepKeepsUnforced(w: World, e: Event)
    requires Unforced(w) && !e.OpLosesSession?
    ensures Unforced(Step(w, e))
  {
    match e
    case Acquire(t) => AcquireKeepsUnforced(w, t);
    case EnterOk(t) => EnterEndsKeepsUnforced(w, t, true);
    case EnterFail(t) => EnterEndsKeepsUnforced(w, t, false);
    case OpEnds(t) => EndKeepsUnforced(w, t);
    case CloserStarts(t) => EndKeepsUnforced(w, t);
    case CloseEnds(t) => CloseEndsKeepsUnforced(w, t);
    case _ =>
  }

  lemma {:induction false} RunKeepsUnforced(w: World, events: seq<Event>)
    requires Unforced(w) && forall i :: 0 <= i < |events| ==> !events[i].OpLosesSession?
    ensures Unforced(Run(w, events))
    decreases |events|
  {
    if events != [] {
      StepKeepsUnforced(w, events[0]);
      RunKeepsUnforced(Step(w, events[0]), events[1..]);
    }
  }

  /** The bound holds in every run in which no operation loses its session. */
  lemma {:induction false} UnforcedBackoffBound(events: seq<Event>, n: nat)
    requires forall i :: 0 <= i < |events| ==> !events[i].OpLosesSession?
    requires 1 <= n <= |Run(INITIAL, events).past.failTimes| && n <= 1025
    ensures var times := Run(INITIAL, events).past.failTimes; times[n - 1] - times[0] >= Bound(n)
  {
    RunKeepsUnforced(INITIAL, events);
    BackoffBound(events, n);
  }

  /** One more attempt, as early as the backoff allows, that fails. */
  lemma FailsAgain(w: World) returns (events: seq<Event>)
    requires Inv(w) && w.lock.None? && w.conn.toolset.None? && !w.past.bypassed
    ensures var w' := Run(w, events);
            var start := if w.conn.retryAt > w.clock then w.conn.retryAt else w.clock;
            && w'.lock.None? && w'.clock == start && w'.conn == ConnectFailed(w.conn, start)
            && w'.past.failTimes == w.past.failTimes + [start] && !w'.past.bypassed
  {
    var wait := if w.conn.retryAt > w.clock then w.conn.retryAt - w.clock else 0.0;
    var n := |w.tasks|;
    events := [Tick(wait), SpawnStart, Acquire(n), EnterFail(n)];
    var w1 := Step(w, Tick(wait));
    var w2 := Step(w1, SpawnStart);
    var w3 := Step(w2, Acquire(n));
    assert w3.tasks[n].phase == Entering(ForStart, w.nextSession);
    assert events[1..] == [SpawnStart, Acquire(n), EnterFail(n)];
    assert events[1..][1..] == [Acquire(n), EnterFail(n)];
    assert events[1..][1..][1..] == [EnterFail(n)];
    assert Run(w, events) == Run(w1, events[1..]) == Run(w2, events[1..][1..])
        == Run(w3, events[1..][1..][1..]) == Step(w3, EnterFail(n));
  }

  /** `n` failures in a row, each as early as the backoff allowed. */
  ghost predicate IsStreak(w: World, n: nat)
    requires n >= 1
  {
    && w.lock.None? && w.conn.toolset.None? && !w.past.bypassed
    && |w.past.failTimes| == n && w.past.failTimes[n - 1] == w.clock
    && w.clock - w.past.failTimes[0] == Bound(if n <= FLOAT_EXPONENT_LIMIT then n else FLOAT_EXPONENT_LIMIT + 1)
    && (n <= FLOAT_EXPONENT_LIMIT || w.conn.retryAt <= w.clock)
  }

  lemma LongerStreak(w: World, w': World, n: nat)
    requires n >= 1 && Inv(w) && IsStreak(w, n)
    requires var start := if w.conn.retryAt > w.clock then w.conn.retryAt else w.clock;
             && w'.lock.None? && w'.clock == start && w'.conn == ConnectFailed(w.conn, start)
             && w'.past.failTimes == w.past.failTimes + [start] && !w'.past.bypassed
    ensures IsStreak(w', n + 1)
  {
    BoundGrows(if n <= FLOAT_EXPONENT_LIMIT then n else 1);
  }

  lemma {:induction false} Streak(n: nat) returns (events: seq<Event>)
    requires n >= 1
    ensures Inv(Run(INITIAL, events)) && IsStreak(Run(INITIAL, events), n)
  {
    if n == 1 {
      assert Pow2(0) == 1;
      Reachable([]);
      events := FailsAgain(INITIAL);
    } else {
      var before := Streak(n - 1);
      var w := Run(INITIAL, before);
      var more := FailsAgain(w);
      events := before + more;
      RunSplits(INITIAL, before, more);
      LongerStreak(w, Run(w, more), n - 1);
    }
    Reachable(events);
  }

  /**
   * From the 1026-th failure on the bound fails: the delay after the 1025-th failure overflows, so
   * `_retry_at` keeps its old value and the next attempts may follow at once.
   */
  lemma BackoffStopsGrowing(n: nat) returns (events: seq<Event>)
    requires n > 1025
    ensures !Run(INITIAL, events).past.bypassed
    ensures |Run(INITIAL, events).past.failTimes| == n
    ensures var times := Run(INITIAL, events).past.failTimes; times[n - 1] - times[0] < Bound(n)
  {
    events := Streak(n);
  }
}
