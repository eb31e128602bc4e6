/**
 * One shared connection to an MCP server (src/assistant/extensions/mcp/toolsets.py).
 *
 * A session is opened lazily, used by any number of concurrent operations, replaced when it dies
 * or when the server's settings change, and closed when it is idle.  The class below holds the
 * fields of the source's object; each of its methods is one stretch of source code that runs
 * without suspending.  The functions on `Fields` specify those methods, and module `McpRuns`
 * interleaves them at the source's suspension points.
 */
module McpConnection {
  import opened Options

  type SessionId = nat

  const BACKOFF_BASE: real := 5.0
  const BACKOFF_MAX: real := 300.0

  /** `5.0 * 2 ** k` raises OverflowError for k >= 1024: such a power is no longer a float. */
  const FLOAT_EXPONENT_LIMIT: nat := 1024

  datatype Fields = Fields(
    toolset: Option<SessionId>,   // the live session
    stale: seq<SessionId>,        // superseded sessions awaiting an idle moment
    inflight: int,
    failures: nat,
    retryAt: real,
    settings: nat)                // how often the settings have been replaced

  const FRESH: Fields := Fields(None, [], 0, 0, 0.0, 0)

  function Pow2(k: nat): (p: nat)
    ensures p >= 1
  {
    if k == 0 then 1 else 2 * Pow2(k - 1)
  }

  /** Seconds to wait after the `n`-th consecutive failure. */
  function Backoff(n: nat): real
    requires n >= 1
  {
    var delay := BACKOFF_BASE * Pow2(n - 1) as real;
    if delay < BACKOFF_MAX then delay else BACKOFF_MAX
  }

  /** May a connect attempt start now? A forced attempt ignores the backoff window. */
  predicate MayAttempt(f: Fields, force: bool, now: real) {
    force || now >= f.retryAt
  }

  function ConnectFailed(f: Fields, now: real): Fields {
    var n := f.failures + 1;
    if n - 1 < FLOAT_EXPONENT_LIMIT
    then f.(failures := n, retryAt := now + Backoff(n))
    else f.(failures := n)  // the delay overflows: retryAt keeps its value, _ensure raises
  }

  function Connected(f: Fields, s: SessionId): Fields {
    f.(failures := 0, retryAt := 0.0, toolset := Some(s))
  }

  /** Detach `failed` for a reconnect, unless somebody else already replaced it. */
  function Detach(f: Fields, failed: SessionId): Fields {
    if f.toolset == Some(failed) then f.(toolset := None) else f
  }

  function Replaced(f: Fields): Fields {
    var g := f.(settings := f.settings + 1, failures := 0, retryAt := 0.0);
    match f.toolset
    case None => g
    case Some(s) => g.(toolset := None, stale := f.stale + [s])
  }

  function Emptied(f: Fields): Fields {
    f.(toolset := None, stale := [])
  }

  /** What `stop` closes, in order: the live session, then the superseded ones. */
  function ToClose(f: Fields): seq<SessionId> {
    (if f.toolset.Some? then [f.toolset.value] else []) + f.stale
  }

  /** The guard of the `_close_stale` loop. */
  predicate ClosesStale(f: Fields) {
    f.stale != [] && f.inflight == 0
  }

  function PopStale(f: Fields): Fields {
    if ClosesStale(f) then f.(stale := f.stale[..|f.stale| - 1]) else f
  }

  class Connection {
    var toolset: Option<SessionId>
    var stale: seq<SessionId>
    var inflight: int
    var failures: nat
    var retryAt: real
    var settings: nat

    function View(): Fields
      reads this
    {
      Fields(toolset, stale, inflight, failures, retryAt, settings)
    }

    constructor ()
      ensures View() == FRESH
    {
      toolset, stale, inflight, failures, retryAt, settings := None, [], 0, 0, 0.0, 0;
    }

    /** `_ensure` after it got the lock, up to `__aenter__`: reuse, back off or attempt. */
    method BeginEnsure(force: bool, now: real) returns (live: Option<SessionId>, attempt: bool)
      ensures live == toolset
      ensures attempt <==> toolset.None? && (force || now >= retryAt)
    {
      if toolset.Some? {
        return toolset, false;
      }
      if !force && now < retryAt {
        return None, false;
      }
      return None, true;
    }

    method NoteConnectFailed(now: real) returns (raises: bool)
      modifies this`failures, this`retryAt
      ensures View() == ConnectFailed(old(View()), now)
      ensures raises <==> old(failures) >= FLOAT_EXPONENT_LIMIT
    {
      failures := failures + 1;
      if failures - 1 >= FLOAT_EXPONENT_LIMIT {
        return true;
      }
      retryAt := now + Backoff(failures);
      return false;
    }

    method NoteConnected(s: SessionId)
      modifies this`failures, this`retryAt, this`toolset
      ensures View() == Connected(old(View()), s)
    {
      failures := 0;
      retryAt := 0.0;
      toolset := Some(s);
    }

    /** The locked section of `_reconnect`. */
    method DetachFailed(failed: SessionId) returns (mustClose: bool)
      modifies this`toolset
      ensures View() == Detach(old(View()), failed)
      ensures mustClose <==> old(toolset) == Some(failed)
    {
      var current := toolset;
      if current == Some(failed) {
        toolset := None;
      }
      mustClose := current == Some(failed);
    }

    method Reconfigure() returns (idle: bool)
      modifies this
      ensures View() == Replaced(old(View()))
      ensures idle <==> ClosesStale(View())
    {
      settings := settings + 1;
      failures := 0;
      retryAt := 0.0;
      if toolset.Some? {
        stale := stale + [toolset.value];
        toolset := None;
      }
      idle := stale != [] && inflight == 0;
    }

    /** The locked section of `stop`. */
    method TakeAll() returns (queue: seq<SessionId>)
      modifies this`toolset, this`stale
      ensures View() == Emptied(old(View()))
      ensures queue == ToClose(old(View()))
    {
      var current, parked := toolset, stale;
      toolset, stale := None, [];
      queue := (if current.Some? then [current.value] else []) + parked;
    }

    /** One test of the `_close_stale` loop guard, with the pop that follows it. */
    method NextStale() returns (popped: Option<SessionId>)
      modifies this`stale
      ensures View() == PopStale(old(View()))
      ensures popped == if ClosesStale(old(View())) then Some(old(stale[|stale| - 1])) else None
    {
      if stale == [] || inflight != 0 {
        return None;
      }
      popped := Some(stale[|stale| - 1]);
      stale := stale[..|stale| - 1];
    }

    method BeginOp()
      modifies this`inflight
      ensures View() == old(View()).(inflight := old(inflight) + 1)
    {
      inflight := inflight + 1;
    }

    /** The `finally` of `_run`, up to the first close it awaits. */
    method EndOp() returns (popped: Option<SessionId>)
      modifies this`inflight, this`stale
      ensures View() == PopStale(old(View()).(inflight := old(inflight) - 1))
      ensures popped.Some? <==> old(inflight) == 1 && old(stale) != []
      ensures popped.Some? ==> popped.value == old(stale[|stale| - 1])
    {
      inflight := inflight - 1;
      popped := NextStale();
    }
  }
}
