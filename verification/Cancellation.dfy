/**
 * A cancelled turn is closed before it is stored: every call without a return gets a synthetic
 * "user_cancelled" one (`_inject_cancellation_results`, src/assistant/agent/pydantic_ai_agent.py).
 */
module Cancellation {
  import opened Options
  import opened SessionLog
  import opened RecordBuilder
  import opened Sequences
  import opened Replay
  import opened ReplayOrder

  const CANCELLED_CONTENT := "{\"status\": \"cancelled\", \"reason\": \"user_cancelled\"}"

  /** The ids of all returns, whatever their outcome. */
  function ReturnedIn(asked: seq<RequestPart>): set<string> {
    if asked == [] then {}
    else (if asked[0].ReturnPart? then {asked[0].id} else {}) + ReturnedIn(asked[1..])
  }

  function Completed(ms: seq<ModelMessage>): set<string> {
    if ms == [] then {}
    else (if ms[0].Request? then ReturnedIn(ms[0].asked) else {}) + Completed(ms[1..])
  }

  function OpenIn(parts: seq<ResponsePart>, completed: set<string>): (open: seq<ResponsePart>)
    ensures forall i :: 0 <= i < |open| ==> open[i].CallPart?
  {
    if parts == [] then []
    else (if parts[0].CallPart? && parts[0].id !in completed then [parts[0]] else [])
         + OpenIn(parts[1..], completed)
  }

  function Pending(ms: seq<ModelMessage>, completed: set<string>): (open: seq<ResponsePart>)
    ensures forall i :: 0 <= i < |open| ==> open[i].CallPart?
  {
    if ms == [] then []
    else (if ms[0].Response? then OpenIn(ms[0].parts, completed) else []) + Pending(ms[1..], completed)
  }

  function Cancelled(open: seq<ResponsePart>): seq<RequestPart>
    requires forall i :: 0 <= i < |open| ==> open[i].CallPart?
  {
    if open == [] then []
    else [ReturnPart(open[0].id, open[0].name, Text(CANCELLED_CONTENT), Denied)] + Cancelled(open[1..])
  }

  function Inject(ms: seq<ModelMessage>): seq<ModelMessage> {
    var open := Pending(ms, Completed(ms));
    if open == [] then ms else ms + [Request(Cancelled(open))]
  }

  method InjectCancellationResults(messages: seq<ModelMessage>) returns (closed: seq<ModelMessage>)
    ensures closed == Inject(messages)
  {
    var completedIds := CollectCompleted(messages);
    var pending := CollectPending(messages, completedIds);
    if pending == [] {
      return messages;
    }
    var cancelledParts := CancelAll(pending);
    return messages + [Request(cancelledParts)];
  }

  method CancelAll(pending: seq<ResponsePart>) returns (cancelledParts: seq<RequestPart>)
    requires forall i :: 0 <= i < |pending| ==> pending[i].CallPart?
    ensures cancelledParts == Cancelled(pending)
  {
    cancelledParts := [];
    var i := 0;
    while i < |pending|
      invariant 0 <= i <= |pending|
      invariant cancelledParts + Cancelled(pending[i..]) == Cancelled(pending)
    {
      cancelledParts := cancelledParts
        + [ReturnPart(pending[i].id, pending[i].name, Text(CANCELLED_CONTENT), Denied)];
      i := i + 1;
    }
  }

  method CollectCompleted(messages: seq<ModelMessage>) returns (completedIds: set<string>)
    ensures completedIds == Completed(messages)
  {
    completedIds := {};
    var i := 0;
    while i < |messages|
      invariant 0 <= i <= |messages|
      invariant completedIds + Completed(messages[i..]) == Completed(messages)
    {
      if messages[i].Request? {
        ghost var before := completedIds;
        var asked := messages[i].asked;
        var j := 0;
        while j < |asked|
          invariant 0 <= j <= |asked|
          invariant completedIds + ReturnedIn(asked[j..]) == before + ReturnedIn(asked)
        {
          if asked[j].ReturnPart? {
            completedIds := completedIds + {asked[j].id};
          }
          j := j + 1;
        }
      }
      i := i + 1;
    }
  }

  method CollectPending(messages: seq<ModelMessage>, completedIds: set<string>)
    returns (pending: seq<ResponsePart>)
    ensures pending == Pending(messages, completedIds)
  {
    pending := [];
    var i := 0;
    while i < |messages|
      invariant 0 <= i <= |messages|
      invariant pending + Pending(messages[i..], completedIds) == Pending(messages, completedIds)
    {
      ghost var mine := if messages[i].Response? then OpenIn(messages[i].parts, completedIds) else [];
      assert messages[i..][1..] == messages[i + 1..];
      Assoc(pending, mine, Pending(messages[i + 1..], completedIds));
      if messages[i].Response? {
        pending := AppendOpen(messages[i].parts, completedIds, pending);
      } else {
        assert pending + [] == pending;
      }
      i := i + 1;
    }
  }

  /** The inner loop over the parts of a response. */
  method AppendOpen(parts: seq<ResponsePart>, completedIds: set<string>, before: seq<ResponsePart>)
    returns (pending: seq<ResponsePart>)
    ensures pending == before + OpenIn(parts, completedIds)
  {
    pending := before;
    var j := 0;
    while j < |parts|
      invariant 0 <= j <= |parts|
      invariant pending + OpenIn(parts[j..], completedIds) == before + OpenIn(parts, completedIds)
    {
      ghost var mine := if parts[j].CallPart? && parts[j].id !in completedIds then [parts[j]] else [];
      assert parts[j..][1..] == parts[j + 1..];
      Assoc(pending, mine, OpenIn(parts[j + 1..], completedIds));
      if parts[j].CallPart? && parts[j].id !in completedIds {
        pending := pending + [parts[j]];
      }
      j := j + 1;
    }
    assert parts[j..] == [] && pending + [] == pending;
  }

  // ---------------------------------------------------------------- what a turn may contain

  function CallCount(es: seq<Event>, id: string): nat {
    if es == [] then 0 else (if es[0].Called? && es[0].id == id then 1 else 0) + CallCount(es[1..], id)
  }

  function ReturnCount(es: seq<Event>, id: string): nat {
    if es == [] then 0 else (if es[0].Returned? && es[0].id == id then 1 else 0) + ReturnCount(es[1..], id)
  }

  /** Call ids are distinct, a call returns at most once, and only after it was made. */
  ghost predicate WellFormed(es: seq<Event>) {
    && (forall id :: CallCount(es, id) <= 1)
    && (forall id :: ReturnCount(es, id) <= 1)
    && (forall j :: 0 <= j < |es| && es[j].Returned? ==> Called(es[j].id, es[j].name) in es[..j])
  }

  ghost predicate Complete(es: seq<Event>) {
    forall id :: CallCount(es, id) > 0 ==> ReturnCount(es, id) > 0
  }

  /** No call other than a memory call was retried. */
  predicate NoRetries(es: seq<Event>) {
    forall e :: e in es && e.Returned? && e.outcome == Retried ==> e.name == MEMORY_TOOL_NAME
  }

  /** Every use has exactly one result, which comes later; every result answers an earlier use. */
  ghost predicate Paired(tokens: seq<Token>) {
    forall i :: 0 <= i < |tokens| ==>
      match tokens[i]
      case Use(id) => Count(tokens[..i], Res(id)) == 0 && Count(tokens[i + 1..], Res(id)) == 1
      case Res(id) => Use(id) in tokens[..i]
  }

  // ---------------------------------------------------------------- counting

  lemma {:induction false} CountsSplit(a: seq<Event>, b: seq<Event>, id: string)
    ensures CallCount(a + b, id) == CallCount(a, id) + CallCount(b, id)
    ensures ReturnCount(a + b, id) == ReturnCount(a, id) + ReturnCount(b, id)
  {
    if a == [] {
      assert a + b == b;
    } else {
      assert (a + b)[1..] == a[1..] + b;
      CountsSplit(a[1..], b, id);
    }
  }

  lemma {:induction false} CountsAt(es: seq<Event>, k: int, id: string)
    requires 0 <= k < |es|
    ensures CallCount(es, id) == CallCount(es[..k], id) + CallCount([es[k]], id) + CallCount(es[k + 1..], id)
    ensures ReturnCount(es, id)
         == ReturnCount(es[..k], id) + ReturnCount([es[k]], id) + ReturnCount(es[k + 1..], id)
  {
    assert es == es[..k] + ([es[k]] + es[k + 1..]);
    CountsSplit(es[..k], [es[k]] + es[k + 1..], id);
    CountsSplit([es[k]], es[k + 1..], id);
  }

  lemma {:induction false} ShownAt(es: seq<Event>, k: int)
    requires 0 <= k < |es|
    ensures AllShown(es) == AllShown(es[..k]) + Shown(es[k]) + AllShown(es[k + 1..])
  {
    AroundEvent(es, k);
    var (before, e, after) := (es[..k], es[k], es[k + 1..]);
    ShownAround(before, e, after);
  }

  lemma AroundEvent(es: seq<Event>, k: int)
    requires 0 <= k < |es|
    ensures es == es[..k] + ([es[k]] + es[k + 1..])
  {}

  lemma {:induction false} ShownAround(before: seq<Event>, e: Event, after: seq<Event>)
    ensures AllShown(before + ([e] + after)) == AllShown(before) + Shown(e) + AllShown(after)
  {
    AllShownSplit(before, [e] + after);
    FirstEvent(e, after);
    Assoc(AllShown(before), Shown(e), AllShown(after));
  }

  /** The `i`-th token shown is that of event `k` alone. */
  ghost predicate ShownBy(es: seq<Event>, i: int, k: int) {
    && 0 <= i < |AllShown(es)| && 0 <= k < |es|
    && Shown(es[k]) == [AllShown(es)[i]]
    && AllShown(es[..k]) == AllShown(es)[..i]
    && AllShown(es[k + 1..]) == AllShown(es)[i + 1..]
  }

  lemma {:induction false} ShownByFirst(first: Event, rest: seq<Event>)
    requires Shown(first) != []
    ensures ShownBy([first] + rest, 0, 0)
  {
    var es := [first] + rest;
    FirstEvent(first, rest);
    assert es[..0] == [] && es[1..] == rest;
  }

  lemma {:induction false} ShownByRest(first: Event, rest: seq<Event>, i: int, k: int)
    requires ShownBy(rest, i, k)
    ensures ShownBy([first] + rest, |Shown(first)| + i, k + 1)
  {
    var es := [first] + rest;
    FirstEvent(first, rest);
    assert es[..k + 1] == [first] + rest[..k] && es[k + 2..] == rest[k + 1..];
    FirstEvent(first, rest[..k]);
    Behind(Shown(first), AllShown(rest), |Shown(first)| + i);
  }

  /** The event behind a token. */
  lemma {:induction false} EventBehind(es: seq<Event>, i: int) returns (k: int)
    requires 0 <= i < |AllShown(es)|
    ensures ShownBy(es, i, k)
  {
    var (first, rest) := (es[0], es[1..]);
    assert es == [first] + rest;
    FirstEvent(first, rest);
    if i < |Shown(first)| {
      ShownByFirst(first, rest);
      k := 0;
    } else {
      k := EventBehind(rest, i - |Shown(first)|);
      ShownByRest(first, rest, i - |Shown(first)|, k);
      k := k + 1;
    }
  }

  lemma Behind(head: seq<Token>, rest: seq<Token>, i: int)
    requires |head| <= i < |head| + |rest|
    ensures (head + rest)[i] == rest[i - |head|]
    ensures (head + rest)[..i] == head + rest[..i - |head|]
    ensures (head + rest)[i + 1..] == rest[i - |head| + 1..]
  {}

  lemma {:induction false} ShownAtMostReturned(es: seq<Event>, id: string)
    ensures Count(AllShown(es), Res(id)) <= ReturnCount(es, id)
    ensures (forall e :: e in es && e.Returned? && e.id == id ==> Shown(e) == [Res(id)]) ==>
              Count(AllShown(es), Res(id)) == ReturnCount(es, id)
  {
    if es != [] {
      ShownAtMostReturned(es[1..], id);
      CountSplit(Shown(es[0]), AllShown(es[1..]), Res(id));
      assert Count(Shown(es[0]), Res(id)) <= ReturnCount([es[0]], id);
    }
  }

  lemma {:induction false} CallPresent(es: seq<Event>, id: string)
    ensures (exists e :: e in es && e.Called? && e.id == id) <==> CallCount(es, id) > 0
  {
    if es != [] {
      CallPresent(es[1..], id);
      assert es == [es[0]] + es[1..];
    }
  }

  lemma {:induction false} ReturnPresent(es: seq<Event>, id: string)
    ensures (exists e :: e in es && e.Returned? && e.id == id) <==> ReturnCount(es, id) > 0
  {
    if es != [] {
      ReturnPresent(es[1..], id);
      assert es == [es[0]] + es[1..];
    }
  }

  // ---------------------------------------------------------------- complete turns

  lemma {:induction false} OneCall(es: seq<Event>, k: int, m: int)
    requires 0 <= k < m < |es| && es[k].Called? && es[m].Called? && es[k].id == es[m].id
    ensures CallCount(es, es[k].id) > 1
  {
    assert es[..m][k] == es[k];
    CallPresent(es[..m], es[k].id);
    CountsAt(es, m, es[k].id);
  }

  /** The return at `j` answers the call at `k`, if that is the call with its id. */
  lemma ReturnAfterCall(es: seq<Event>, k: int, j: int)
    requires WellFormed(es) && 0 <= k < |es| && es[k].Called?
    requires 0 <= j < |es| && es[j].Returned? && es[j].id == es[k].id
    ensures k < j && es[j].name == es[k].name
  {
    var m :| 0 <= m < j && es[..j][m] == Called(es[j].id, es[j].name);
    if m < k {
      OneCall(es, m, k);
    } else if k < m {
      OneCall(es, k, m);
    }
  }

  /** Before a call there is no return for it, and the one after it has the name of the call. */
  lemma NothingBeforeCall(es: seq<Event>, k: int)
    requires WellFormed(es) && 0 <= k < |es| && es[k].Called?
    ensures ReturnCount(es[..k], es[k].id) == 0
    ensures forall e :: e in es && e.Returned? && e.id == es[k].id ==> e.name == es[k].name
  {
    var id := es[k].id;
    forall j | 0 <= j < |es| && es[j].Returned? && es[j].id == id ensures k < j && es[j].name == es[k].name {
      ReturnAfterCall(es, k, j);
    }
    ReturnPresent(es[..k], id);
  }

  lemma CallIsAnswered(es: seq<Event>, k: int)
    requires WellFormed(es) && Complete(es) && NoRetries(es)
    requires 0 <= k < |es| && es[k].Called? && es[k].name != MEMORY_TOOL_NAME
    ensures Count(AllShown(es[..k]), Res(es[k].id)) == 0
    ensures Count(AllShown(es[k + 1..]), Res(es[k].id)) == 1
  {
    var id := es[k].id;
    NothingBeforeCall(es, k);
    CountsAt(es, k, id);
    ShownAtMostReturned(es[..k], id);
    assert forall e :: e in es[k + 1..] ==> e in es;
    ShownAtMostReturned(es[k + 1..], id);
  }

  lemma ResultIsCalled(es: seq<Event>, k: int)
    requires WellFormed(es) && 0 <= k < |es| && es[k].Returned? && es[k].name != MEMORY_TOOL_NAME
    ensures Use(es[k].id) in AllShown(es[..k])
  {
    var call := Called(es[k].id, es[k].name);
    var m :| 0 <= m < k && es[..k][m] == call;
    ShownAt(es[..k], m);
    assert Shown(call)[0] == Use(es[k].id);
  }

  lemma {:induction false} RetriedIsNotShown(es: seq<Event>, j: int)
    requires 0 <= j < |es| && es[j].Returned? && es[j].outcome == Retried
    ensures Count(AllShown(es), Res(es[j].id)) < ReturnCount(es, es[j].id)
  {
    var id := es[j].id;
    if j == 0 {
      ShownAtMostReturned(es[1..], id);
      assert AllShown(es) == AllShown(es[1..]);
    } else {
      RetriedIsNotShown(es[1..], j - 1);
      CountSplit(Shown(es[0]), AllShown(es[1..]), Res(id));
      assert Count(Shown(es[0]), Res(id)) <= ReturnCount([es[0]], id);
    }
  }

  lemma {:induction false} RetriedIsUnanswered(es: seq<Event>, j: int)
    requires WellFormed(es) && 0 <= j < |es|
    requires es[j].Returned? && es[j].outcome == Retried && es[j].name != MEMORY_TOOL_NAME
    ensures !Paired(AllShown(es))
  {
    var id := es[j].id;
    var k :| 0 <= k < j && es[..j][k] == Called(id, es[j].name);
    var later := es[k + 1..];
    assert later[j - k - 1] == es[j];
    RetriedIsNotShown(later, j - k - 1);
    CountsAt(es, k, id);
    ShownAt(es, k);
    var tokens := AllShown(es);
    var i := |AllShown(es[..k])|;
    assert Shown(es[k]) == [Use(id)];
    assert tokens[i] == Use(id);
    assert tokens[i + 1..] == AllShown(later);
  }

  /** In a complete turn, calls and results pair up exactly when nothing was retried. */
  lemma {:induction false} PairedIffNoRetries(es: seq<Event>)
    requires WellFormed(es) && Complete(es)
    ensures Paired(AllShown(es)) <==> NoRetries(es)
  {
    if NoRetries(es) {
      var tokens := AllShown(es);
      forall i | 0 <= i < |tokens|
        ensures match tokens[i]
                case Use(id) => Count(tokens[..i], Res(id)) == 0 && Count(tokens[i + 1..], Res(id)) == 1
                case Res(id) => Use(id) in tokens[..i]
      {
        var k := EventBehind(es, i);
        assert Shown(es[k])[0] == tokens[i];
        match es[k] {
          case Called(_, _) => CallIsAnswered(es, k);
          case Returned(_, _, _) => ResultIsCalled(es, k);
        }
      }
    } else {
      var e :| e in es && e.Returned? && e.outcome == Retried && e.name != MEMORY_TOOL_NAME;
      var j :| 0 <= j < |es| && es[j] == e;
      RetriedIsUnanswered(es, j);
    }
  }

  // ---------------------------------------------------------------- injection completes a turn

  lemma {:induction false} ReturnedInEvents(asked: seq<RequestPart>, id: string)
    ensures id in ReturnedIn(asked) <==> ReturnCount(ReturnEvents(asked), id) > 0
  {
    if asked != [] {
      ReturnedInEvents(asked[1..], id);
      if asked[0].ReturnPart? {
        CountsSplit([Returned(asked[0].id, asked[0].name, asked[0].outcome)], ReturnEvents(asked[1..]), id);
      } else {
        assert ReturnEvents(asked) == ReturnEvents(asked[1..]);
      }
    }
  }

  lemma {:induction false} OnlyCalls(parts: seq<ResponsePart>, id: string)
    ensures ReturnCount(CallEvents(parts), id) == 0
  {
    if parts != [] {
      OnlyCalls(parts[1..], id);
      if parts[0].CallPart? {
        CountsSplit([Called(parts[0].id, parts[0].name)], CallEvents(parts[1..]), id);
      } else {
        assert CallEvents(parts) == CallEvents(parts[1..]);
      }
    }
  }

  lemma {:induction false} OnlyReturns(asked: seq<RequestPart>, id: string)
    ensures CallCount(ReturnEvents(asked), id) == 0
  {
    if asked != [] {
      OnlyReturns(asked[1..], id);
      if asked[0].ReturnPart? {
        CountsSplit([Returned(asked[0].id, asked[0].name, asked[0].outcome)], ReturnEvents(asked[1..]), id);
      } else {
        assert ReturnEvents(asked) == ReturnEvents(asked[1..]);
      }
    }
  }

  lemma {:induction false} CompletedMeansReturned(ms: seq<ModelMessage>, id: string)
    ensures id in Completed(ms) <==> ReturnCount(Events(ms), id) > 0
  {
    if ms != [] {
      CompletedMeansReturned(ms[1..], id);
      CountsSplit(MessageEvents(ms[0]), Events(ms[1..]), id);
      match ms[0]
      case Response(parts) => OnlyCalls(parts, id);
      case Request(asked) => ReturnedInEvents(asked, id);
    }
  }

  lemma {:induction false} OpenInCount(parts: seq<ResponsePart>, completed: set<string>, id: string)
    ensures ReturnCount(ReturnEvents(Cancelled(OpenIn(parts, completed))), id)
         == if id in completed then 0 else CallCount(CallEvents(parts), id)
  {
    if parts != [] {
      OpenInCount(parts[1..], completed, id);
      if parts[0].CallPart? {
        CountsSplit([Called(parts[0].id, parts[0].name)], CallEvents(parts[1..]), id);
      } else {
        assert CallEvents(parts) == CallEvents(parts[1..]);
      }
      var rest := OpenIn(parts[1..], completed);
      if parts[0].CallPart? && parts[0].id !in completed {
        CancelledFirst(parts[0], rest, id);
      } else {
        assert OpenIn(parts, completed) == rest;
      }
    }
  }

  lemma {:induction false} CancelledFirst(call: ResponsePart, rest: seq<ResponsePart>, id: string)
    requires call.CallPart? && forall i :: 0 <= i < |rest| ==> rest[i].CallPart?
    requires forall i :: 0 <= i < |[call] + rest| ==> ([call] + rest)[i].CallPart?
    ensures ReturnEvents(Cancelled([call] + rest))
         == [Returned(call.id, call.name, Denied)] + ReturnEvents(Cancelled(rest))
    ensures ReturnCount(ReturnEvents(Cancelled([call] + rest)), id)
         == (if call.id == id then 1 else 0) + ReturnCount(ReturnEvents(Cancelled(rest)), id)
  {
    assert ([call] + rest)[1..] == rest;
    var part := ReturnPart(call.id, call.name, Text(CANCELLED_CONTENT), Denied);
    assert Cancelled([call] + rest)[1..] == Cancelled(rest);
    CountsSplit([Returned(call.id, call.name, Denied)], ReturnEvents(Cancelled(rest)), id);
  }

  lemma {:induction false} CancelledSplit(a: seq<ResponsePart>, b: seq<ResponsePart>, id: string)
    requires forall i :: 0 <= i < |a| ==> a[i].CallPart?
    requires forall i :: 0 <= i < |b| ==> b[i].CallPart?
    requires forall i :: 0 <= i < |a + b| ==> (a + b)[i].CallPart?
    ensures ReturnCount(ReturnEvents(Cancelled(a + b)), id)
         == ReturnCount(ReturnEvents(Cancelled(a)), id) + ReturnCount(ReturnEvents(Cancelled(b)), id)
  {
    if a == [] {
      assert a + b == b;
    } else {
      assert a + b == [a[0]] + (a[1..] + b);
      assert a == [a[0]] + a[1..];
      CancelledSplit(a[1..], b, id);
      CancelledFirst(a[0], a[1..] + b, id);
      CancelledFirst(a[0], a[1..], id);
    }
  }

  /** Exactly the calls without a return get a synthetic one. */
  lemma {:induction false} PendingCount(ms: seq<ModelMessage>, completed: set<string>, id: string)
    ensures ReturnCount(ReturnEvents(Cancelled(Pending(ms, completed))), id)
         == if id in completed then 0 else CallCount(Events(ms), id)
  {
    if ms != [] {
      PendingCount(ms[1..], completed, id);
      CountsSplit(MessageEvents(ms[0]), Events(ms[1..]), id);
      match ms[0]
      case Response(parts) =>
        OpenInCount(parts, completed, id);
        CancelledSplit(OpenIn(parts, completed), Pending(ms[1..], completed), id);
      case Request(asked) =>
        OnlyReturns(asked, id);
        assert Pending(ms, completed) == Pending(ms[1..], completed);
    }
  }

  lemma {:induction false} CancelledEvent(open: seq<ResponsePart>, k: int)
    requires forall i :: 0 <= i < |open| ==> open[i].CallPart?
    requires 0 <= k < |ReturnEvents(Cancelled(open))|
    ensures |ReturnEvents(Cancelled(open))| == |open|
    ensures ReturnEvents(Cancelled(open))[k] == Returned(open[k].id, open[k].name, Denied)
  {
    CancelledFirst(open[0], open[1..], "");
    assert open == [open[0]] + open[1..];
    if |ReturnEvents(Cancelled(open[1..]))| > 0 {
      CancelledEvent(open[1..], if k == 0 then 0 else k - 1);
    }
  }

  lemma {:induction false} OpenInWasCalled(parts: seq<ResponsePart>, completed: set<string>, p: ResponsePart)
    requires p in OpenIn(parts, completed)
    ensures p.CallPart? && Called(p.id, p.name) in CallEvents(parts)
  {
    if parts[0].CallPart? && parts[0].id !in completed && p == parts[0] {
    } else {
      OpenInWasCalled(parts[1..], completed, p);
    }
  }

  lemma {:induction false} PendingWasCalled(ms: seq<ModelMessage>, completed: set<string>, p: ResponsePart)
    requires p in Pending(ms, completed)
    ensures p.CallPart? && Called(p.id, p.name) in Events(ms)
  {
    if ms[0].Response? && p in OpenIn(ms[0].parts, completed) {
      OpenInWasCalled(ms[0].parts, completed, p);
    } else {
      PendingWasCalled(ms[1..], completed, p);
    }
  }

  function Synthetic(ms: seq<ModelMessage>): seq<Event> {
    ReturnEvents(Cancelled(Pending(ms, Completed(ms))))
  }

  lemma {:induction false} InjectedEvents(ms: seq<ModelMessage>)
    ensures Events(Inject(ms)) == Events(ms) + Synthetic(ms)
  {
    var open := Pending(ms, Completed(ms));
    if open != [] {
      var closing := [Request(Cancelled(open))];
      EventsSplit(ms, closing);
      assert closing[1..] == [];
    }
  }

  lemma {:induction false} InjectedCounts(ms: seq<ModelMessage>, id: string)
    ensures CallCount(Events(Inject(ms)), id) == CallCount(Events(ms), id)
    ensures ReturnCount(Events(Inject(ms)), id)
         == if ReturnCount(Events(ms), id) > 0 then ReturnCount(Events(ms), id) else CallCount(Events(ms), id)
  {
    InjectedEvents(ms);
    CountsSplit(Events(ms), Synthetic(ms), id);
    OnlyReturns(Cancelled(Pending(ms, Completed(ms))), id);
    PendingCount(ms, Completed(ms), id);
    CompletedMeansReturned(ms, id);
  }

  /** Injection keeps a turn well-formed and leaves no call without a return. */
  lemma {:induction false} InjectCompletes(ms: seq<ModelMessage>)
    requires WellFormed(Events(ms))
    ensures WellFormed(Events(Inject(ms))) && Complete(Events(Inject(ms)))
    ensures NoRetries(Events(Inject(ms))) <==> NoRetries(Events(ms))
  {
    forall id ensures CallCount(Events(Inject(ms)), id) <= 1 && ReturnCount(Events(Inject(ms)), id) <= 1
      && (CallCount(Events(Inject(ms)), id) > 0 ==> ReturnCount(Events(Inject(ms)), id) > 0)
    {
      InjectedCounts(ms, id);
    }
    InjectedEvents(ms);
    var es := Events(ms);
    var all := es + Synthetic(ms);
    forall j | |es| <= j < |all|
      ensures all[j].Returned? && all[j].outcome == Denied && Called(all[j].id, all[j].name) in all[..j]
    {
      SyntheticAnswersCall(ms, j - |es|);
      assert all[..|es|] == es && all[..j][..|es|] == es;
    }
    forall j | 0 <= j < |es| && es[j].Returned? ensures Called(all[j].id, all[j].name) in all[..j] {
      assert all[..j] == es[..j];
    }
  }

  lemma {:induction false} SyntheticAnswersCall(ms: seq<ModelMessage>, k: int)
    requires 0 <= k < |Synthetic(ms)|
    ensures var e := Synthetic(ms)[k]; e.Returned? && e.outcome == Denied && Called(e.id, e.name) in Events(ms)
  {
    var open := Pending(ms, Completed(ms));
    CancelledEvent(open, k);
    PendingWasCalled(ms, Completed(ms), open[k]);
  }

  // ---------------------------------------------------------------- what the model is shown

  /**
   * The replay invariant of a cancelled turn: in the messages sent to the model every tool_use is
   * followed by exactly one tool_result, and every tool_result follows its tool_use, exactly when
   * no call other than a memory call was retried.
   */
  lemma {:induction false} CancelledTurnReplays(
    c: Codec, turn: string, ms: seq<ModelMessage>, usage: Option<int>, skipMemory: bool)
    requires WellFormed(Events(ms))
    ensures Paired(Tokens(Messages(c, Build(c, turn, Inject(ms), usage, skipMemory)))) <==> NoRetries(Events(ms))
  {
    InjectCompletes(ms);
    var recs := Build(c, turn, Inject(ms), usage, skipMemory);
    var es := Events(Inject(ms));
    StorageKeepsOrder(c, turn, Inject(ms), usage, skipMemory);
    forall id ensures Count(AllShown(es), Res(id)) <= 1 {
      ShownAtMostReturned(es, id);
    }
    ReplayKeepsOrder(c, recs);
    PairedIffNoRetries(es);
  }

  /** Injecting twice adds nothing: the turn is already complete. */
  lemma {:induction false} InjectOnce(ms: seq<ModelMessage>)
    requires WellFormed(Events(ms))
    ensures Inject(Inject(ms)) == Inject(ms)
  {
    var closed := Inject(ms);
    var open := Pending(closed, Completed(closed));
    if open != [] {
      var id := open[0].id;
      PendingCount(closed, Completed(closed), id);
      CancelledFirst(open[0], open[1..], id);
      assert open == [open[0]] + open[1..];
      InjectCompletes(ms);
      CompletedMeansReturned(closed, id);
    }
  }

  const RETRIED_TURN := [
    Response([CallPart("a", "search", NoArgs)]),
    Request([ReturnPart("a", "search", Text("invalid arguments"), Retried)])]

  lemma RetriedEvents()
    ensures Events(RETRIED_TURN) == [Called("a", "search"), Returned("a", "search", Retried)]
    ensures AllShown(Events(RETRIED_TURN)) == [Use("a")]
    ensures WellFormed(Events(RETRIED_TURN))
  {
    assert CallEvents([CallPart("a", "search", NoArgs)]) == [Called("a", "search")];
    assert ReturnEvents(RETRIED_TURN[1].asked) == [Returned("a", "search", Retried)];
    var (call, retried) := (Called("a", "search"), Returned("a", "search", Retried));
    var es := [call] + [retried];
    FirstEvent(call, [retried]);
    forall id ensures CallCount(es, id) <= 1 && ReturnCount(es, id) <= 1 {
      CountsSplit([call], [retried], id);
    }
    assert es[..1] == [call];
  }

  /** A retried return counts as complete but is not stored: its tool_use stays without a result. */
  lemma {:induction false} RetriedCallStaysOpen(c: Codec)
    ensures Inject(RETRIED_TURN) == RETRIED_TURN
    ensures Tokens(Messages(c, Build(c, "t", RETRIED_TURN, None, true))) == [Use("a")]
  {
    assert Completed(RETRIED_TURN) == {"a"};
    RetriedEvents();
    StorageKeepsOrder(c, "t", RETRIED_TURN, None, true);
    ReplayKeepsOrder(c, Build(c, "t", RETRIED_TURN, None, true));
  }
}
