/**
 * Operations do run: what becomes of an operation at each of its steps, and when it ends without
 * having run at all.
 */
module McpProgress {
  import opened Options
  import opened McpConnection
  import opened McpRuns

  /** Task `t` begins to run on `s`, which is live; the other tasks stay as they are. */
  ghost predicate Begins(w: World, w': World, t: nat, s: SessionId, first: Option<SessionId>)
    requires t < |w.tasks|
  {
    && w'.tasks == w.tasks[t := Task(InOp(s, first), w.tasks[t].replay, w.tasks[t].runs + [s])]
    && w'.conn.toolset == Some(s) && w'.lock.None?
  }

  /** An operation that finds a live session is counted as in flight and runs on it. */
  lemma LiveSessionIsUsed(w: World, t: nat, s: SessionId)
    requires t < |w.tasks| && w.tasks[t].phase == EnsureWait(ForRun)
    requires w.lock.None? && w.conn.toolset == Some(s)
    ensures Begins(w, Step(w, Acquire(t)), t, s, None)
    ensures Step(w, Acquire(t)).conn.inflight == w.conn.inflight + 1
  {}

  /** So does one whose own connection attempt succeeds. */
  lemma NewSessionIsUsed(w: World, t: nat, s: SessionId)
    requires t < |w.tasks| && w.tasks[t].phase == Entering(ForRun, s)
    ensures Begins(w, Step(w, EnterOk(t)), t, s, None)
    ensures Step(w, EnterOk(t)).conn.inflight == w.conn.inflight + 1
    ensures s in Step(w, EnterOk(t)).past.entered
  {}

  /** Waiting for the lock to be connected, or connecting. */
  predicate Connecting(phase: Phase) {
    phase == EnsureWait(ForRun) || (phase.Entering? && phase.why == ForRun)
  }

  /** Did this step tell the operation that there is no session? */
  predicate Unavailable(w: World, e: Event, t: nat)
    requires t < |w.tasks|
  {
    || (e == Acquire(t) && w.tasks[t].phase.EnsureWait? && w.lock.None? && w.conn.toolset.None?
        && w.clock < w.conn.retryAt)
    || (e == EnterFail(t) && w.tasks[t].phase.Entering?)
  }

  /** An operation ends without having run exactly when it was told that there is no session. */
  lemma GivesUpIff(w: World, e: Event, t: nat)
    requires LockInv(w) && t < |w.tasks| && Connecting(w.tasks[t].phase) && w.tasks[t].runs == []
    ensures t < |Step(w, e).tasks|
    ensures var task := Step(w, e).tasks[t];
            && (task.phase.Done? <==> Unavailable(w, e, t))
            && (Connecting(task.phase) || task.phase.Done? ==> task.runs == [])
            && (Connecting(task.phase) || task.phase.Done?
                || (task.phase.InOp? && task.phase.first.None? && task.runs == [task.phase.session]
                    && Step(w, e).conn.toolset == Some(task.phase.session)))
  {}

  // ---------------------------------------------------------------- an operation ends or is lost

  /** The operation is over: no longer in flight, nothing run any more. */
  ghost predicate Ends(w: World, w': World, t: nat)
    requires t < |w.tasks|
  {
    && t < |w'.tasks| && (w'.tasks[t].phase.Done? || w'.tasks[t].phase.ClosingStale?)
    && w'.tasks[t].runs == w.tasks[t].runs && w'.conn.inflight == w.conn.inflight - 1
  }

  lemma ResultEndsIt(w: World, t: nat)
    requires t < |w.tasks| && w.tasks[t].phase.InOp?
    ensures Ends(w, Step(w, OpEnds(t)), t)
    ensures w.tasks[t].phase.first.Some? ==> Ends(w, Step(w, OpLosesSession(t)), t)
  {}

  /** A first lost session sends the operation to `_reconnect`, and it stays in flight. */
  lemma LossReconnects(w: World, t: nat)
    requires t < |w.tasks| && w.tasks[t].phase.InOp? && w.tasks[t].phase.first.None?
    ensures Step(w, OpLosesSession(t))
         == w.(tasks := w.tasks[t := w.tasks[t].(phase := ReconnectWait(w.tasks[t].phase.session))])
  {}

  /** With the lock, the failed session is detached and closed if it is still live, else left alone. */
  lemma ReconnectDetaches(w: World, t: nat, failed: SessionId)
    requires t < |w.tasks| && w.tasks[t].phase == ReconnectWait(failed) && w.lock.None?
    ensures var w' := Step(w, Acquire(t));
            && w'.conn.toolset != Some(failed) && t < |w'.tasks|
            && w'.tasks[t].phase == if w.conn.toolset == Some(failed) then ReconnectClosing(failed)
                                    else EnsureWait(ForReplay(failed))
  {}

  lemma ClosedThenConnects(w: World, t: nat, failed: SessionId)
    requires t < |w.tasks| && w.tasks[t].phase == ReconnectClosing(failed)
    ensures var w' := Step(w, CloseEnds(t));
            && w'.past.closed == w.past.closed + [failed]
            && t < |w'.tasks| && w'.tasks[t].phase == EnsureWait(ForReplay(failed))
  {}

  /** A reconnect does not wait for the backoff: without a live session it always attempts one. */
  lemma ReconnectIsForced(w: World, t: nat, failed: SessionId)
    requires t < |w.tasks| && w.tasks[t].phase == EnsureWait(ForReplay(failed))
    requires w.lock.None? && w.conn.toolset.None?
    ensures var w' := Step(w, Acquire(t));
            && w'.lock == Some(t) && t < |w'.tasks|
            && w'.tasks[t].phase == Entering(ForReplay(failed), w.nextSession)
  {}

  /** A listing that comes back from a reconnect with a session runs on it; a call does not run again. */
  lemma ReconnectedListingRuns(w: World, t: nat, failed: SessionId, s: SessionId)
    requires t < |w.tasks|
    ensures w.tasks[t].phase == EnsureWait(ForReplay(failed)) && w.lock.None? && w.conn.toolset == Some(s) ==>
              if w.tasks[t].replay
              then Begins(w, Step(w, Acquire(t)), t, s, Some(failed))
                   && Step(w, Acquire(t)).conn.inflight == w.conn.inflight
              else Ends(w, Step(w, Acquire(t)), t)
    ensures w.tasks[t].phase == Entering(ForReplay(failed), s) ==>
              if w.tasks[t].replay
              then Begins(w, Step(w, EnterOk(t)), t, s, Some(failed))
                   && Step(w, EnterOk(t)).conn.inflight == w.conn.inflight
              else Ends(w, Step(w, EnterOk(t)), t) && Step(w, EnterOk(t)).conn.toolset == Some(s)
    ensures w.tasks[t].phase == Entering(ForReplay(failed), s) ==> Ends(w, Step(w, EnterFail(t)), t)
  {}

  // ---------------------------------------------------------------- the steps around operations

  /** The first attempt after a backoff, and one without a backoff, starts; an earlier one does not. */
  lemma AttemptsIff(w: World, t: nat)
    requires t < |w.tasks| && w.tasks[t].phase.EnsureWait? && !w.tasks[t].phase.why.ForReplay?
    requires w.lock.None? && w.conn.toolset.None?
    ensures var w' := Step(w, Acquire(t));
            && t < |w'.tasks|
            && (w'.tasks[t].phase == Entering(w.tasks[t].phase.why, w.nextSession)
                <==> w.clock >= w.conn.retryAt)
            && (w.clock < w.conn.retryAt ==> w'.tasks[t].phase.Done?)
  {}

  /** Seconds of backoff: 5, doubled with every failure, and 300 from the seventh on. */
  function Delay(n: nat): real
    requires n >= 1
  {
    match n
    case 1 => 5.0
    case 2 => 10.0
    case 3 => 20.0
    case 4 => 40.0
    case 5 => 80.0
    case 6 => 160.0
    case _ => 300.0
  }

  lemma {:induction false} PowersGrow(i: nat, j: nat)
    requires i <= j
    ensures Pow2(i) <= Pow2(j)
  {
    if i < j {
      PowersGrow(i, j - 1);
    }
  }

  lemma BackoffIs(n: nat)
    requires n >= 1
    ensures Backoff(n) == Delay(n)
  {
    assert Pow2(0) == 1 && Pow2(1) == 2 && Pow2(2) == 4 && Pow2(3) == 8 && Pow2(4) == 16 && Pow2(5) == 32;
    if n > 6 {
      assert Pow2(6) == 64;
      PowersGrow(6, n - 1);
    }
  }

  /** What the bound on a streak of failures comes to in seconds. */
  lemma BoundIs(n: nat)
    requires n >= 1
    ensures Bound(n) == match n case 1 => 0.0 case 2 => 5.0 case 3 => 15.0 case 4 => 35.0 case 5 => 75.0
                                case 6 => 155.0 case _ => 315.0 + 300.0 * (n - 7) as real
  {
    assert Pow2(0) == 1 && Pow2(1) == 2 && Pow2(2) == 4 && Pow2(3) == 8 && Pow2(4) == 16 && Pow2(5) == 32;
    assert Pow2(6) == 64;
  }

  /** A failed attempt is counted and delays the next, until the delay is no longer a float. */
  lemma FailureDelays(w: World, t: nat)
    requires t < |w.tasks| && w.tasks[t].phase.Entering?
    ensures var (f, g) := (w.conn, Step(w, EnterFail(t)).conn);
            && g.failures == f.failures + 1 && g.toolset == f.toolset && g.settings == f.settings
            && g.retryAt == if g.failures <= 1024 then w.clock + Delay(g.failures) else f.retryAt
  {
    BackoffIs(w.conn.failures + 1);
  }

  /** A successful one clears the backoff. */
  lemma SuccessClears(w: World, t: nat, s: SessionId)
    requires t < |w.tasks| && w.tasks[t].phase.Entering? && w.tasks[t].phase.session == s
    ensures var (f, g) := (w.conn, Step(w, EnterOk(t)).conn);
            g.failures == 0 && g.retryAt == 0.0 && g.toolset == Some(s) && g.settings == f.settings
  {}

  /** A closer closes parked sessions one by one, the latest first, while nothing is in flight. */
  lemma CloserCloses(w: World, t: nat)
    requires t < |w.tasks| && w.tasks[t].phase.CloserReady?
    ensures var w' := Step(w, CloserStarts(t));
            && t < |w'.tasks|
            && if w.conn.stale != [] && w.conn.inflight == 0
               then w'.tasks[t].phase == ClosingStale(w.conn.stale[|w.conn.stale| - 1])
                    && w'.conn.stale == w.conn.stale[..|w.conn.stale| - 1]
               else w'.tasks[t].phase.Done? && w'.conn == w.conn
  {}

  /** `stop` takes over all sessions, and its closes go through them in order. */
  lemma StopTakes(w: World, t: nat)
    requires t < |w.tasks| && w.tasks[t].phase.StopWait? && w.lock.None?
    ensures var w' := Step(w, Acquire(t));
            var live := match w.conn.toolset case Some(s) => [s] case None => [];
            && w'.conn.toolset.None? && w'.conn.stale == [] && t < |w'.tasks|
            && Held(w'.tasks[t].phase) == live + w.conn.stale
  {
    assert [] + w.conn.stale == w.conn.stale;
  }

  /** `reconfigure`: new settings, no backoff, the live session parked; nothing else but a closer. */
  lemma ReconfigureIs(w: World, loopRunning: bool)
    ensures var (f, g) := (w.conn, Step(w, Reconfigure(loopRunning)).conn);
            && g.settings == f.settings + 1 && g.failures == 0 && g.retryAt == 0.0
            && g.inflight == f.inflight && g.toolset.None?
            && g.stale == f.stale + (match f.toolset case Some(s) => [s] case None => [])
    ensures var w' := Step(w, Reconfigure(loopRunning));
            w'.tasks == w.tasks || w'.tasks == w.tasks + [Task(CloserReady, false, [])]
  {}

  // ---------------------------------------------------------------- two runs

  lemma {:induction false} RunSnoc(w: World, events: seq<Event>, e: Event)
    ensures Run(w, events + [e]) == Step(Run(w, events), e)
    decreases |events|
  {
    if events == [] {
      assert (events + [e])[1..] == [];
      assert Run(Step(w, e), []) == Step(w, e);
    } else {
      assert (events + [e])[1..] == events[1..] + [e];
      RunSnoc(Step(w, events[0]), events[1..], e);
    }
  }

  /** An operation of either kind up to its first run. */
  lemma {:induction false} FirstRun(replay: bool) returns (events: seq<Event>)
    ensures var w := Run(INITIAL, events);
            && w.tasks == [Task(InOp(0, None), replay, [0])] && w.lock.None? && w.nextSession == 1
            && w.conn.toolset == Some(0) && w.conn.stale == [] && w.conn.inflight == 1
            && w.past.closed == []
  {
    events := [SpawnRun(replay)];
    assert Run(INITIAL, [SpawnRun(replay)]) == Step(INITIAL, SpawnRun(replay)) by {
      assert Run(INITIAL, []) == INITIAL && [] + [SpawnRun(replay)] == [SpawnRun(replay)];
      RunSnoc(INITIAL, [], SpawnRun(replay));
    }
    RunSnoc(INITIAL, events, Acquire(0));
    events := events + [Acquire(0)];
    assert Run(INITIAL, events).tasks == [Task(Entering(ForRun, 0), replay, [])];
    NewSessionIsUsed(Run(INITIAL, events), 0, 0);
    assert [] + [0] == [0];
    RunSnoc(INITIAL, events, EnterOk(0));
    events := events + [EnterOk(0)];
  }

  /** A tool call runs once and ends, and its session stays live. */
  lemma {:induction false} CallRuns() returns (events: seq<Event>)
    ensures Run(INITIAL, events).tasks == [Task(Done, false, [0])]
    ensures Run(INITIAL, events).conn.toolset == Some(0) && Run(INITIAL, events).conn.inflight == 0
  {
    events := FirstRun(false);
    RunSnoc(INITIAL, events, OpEnds(0));
    events := events + [OpEnds(0)];
  }

  /** A listing that loses its session runs a second time on a new one. */
  lemma {:induction false} ListingRunsTwice() returns (events: seq<Event>)
    ensures Run(INITIAL, events).tasks == [Task(Done, true, [0, 1])]
    ensures Run(INITIAL, events).conn.toolset == Some(1) && Run(INITIAL, events).conn.inflight == 0
    ensures Run(INITIAL, events).past.closed == [0]
  {
    events := LostAndClosed();
    var w := Run(INITIAL, events);
    ReconnectIsForced(w, 0, 0);
    RunSnoc(INITIAL, events, Acquire(0));
    events := events + [Acquire(0)];
    ReconnectedListingRuns(Run(INITIAL, events), 0, 0, 1);
    RunSnoc(INITIAL, events, EnterOk(0));
    events := events + [EnterOk(0)];
    assert [0] + [1] == [0, 1];
    assert Run(INITIAL, events).tasks == [Task(InOp(1, Some(0)), true, [0, 1])];
    RunSnoc(INITIAL, events, OpEnds(0));
    events := events + [OpEnds(0)];
  }

  lemma {:induction false} LostAndClosed() returns (events: seq<Event>)
    ensures var w := Run(INITIAL, events);
            && w.tasks == [Task(EnsureWait(ForReplay(0)), true, [0])] && w.lock.None? && w.nextSession == 1
            && w.conn.toolset.None? && w.conn.stale == [] && w.conn.inflight == 1
            && w.past.closed == [0]
  {
    events := FirstRun(true);
    LossReconnects(Run(INITIAL, events), 0);
    RunSnoc(INITIAL, events, OpLosesSession(0));
    events := events + [OpLosesSession(0)];
    assert Run(INITIAL, events).tasks == [Task(ReconnectWait(0), true, [0])];
    RunSnoc(INITIAL, events, Acquire(0));
    events := events + [Acquire(0)];
    assert Run(INITIAL, events).tasks == [Task(ReconnectClosing(0), true, [0])];
    RunSnoc(INITIAL, events, CloseEnds(0));
    events := events + [CloseEnds(0)];
  }
}
