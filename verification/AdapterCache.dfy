/**
 * Expansion finds exactly what is reachable, so what an adapter shows depends on the set of enabled
 * capabilities only; the cache keyed by that set (src/assistant/agent/adapter_cache.py) is transparent.
 */
module AdapterCache {
  import opened Capabilities
  import opened Sequences
  import opened Strings

  // ---------------------------------------------------------------- reachability

  ghost predicate IsPath(defs: Definitions, p: seq<string>) {
    p != [] && forall i :: 0 <= i < |p| - 1 ==> p[i] in defs && p[i + 1] in defs[p[i]].nested
  }

  ghost predicate Reachable(defs: Definitions, roots: set<string>, cap: string) {
    exists p :: IsPath(defs, p) && p[0] in roots && p[|p| - 1] == cap
  }

  predicate NoDuplicates(list: seq<string>) {
    forall i, j :: 0 <= i < j < |list| ==> list[i] != list[j]
  }

  predicate NestedListed(defs: Definitions, cap: string, list: seq<string>)
    requires cap in defs
  {
    forall i :: 0 <= i < |defs[cap].nested| ==> defs[cap].nested[i] in list
  }

  /** Whatever is listed but was not seen before has its nested capabilities listed. */
  predicate Closed(defs: Definitions, list: seq<string>, seen: seq<string>) {
    forall i :: 0 <= i < |list| && list[i] !in seen && list[i] in defs ==> NestedListed(defs, list[i], list)
  }

  predicate AllIn(caps: seq<string>, list: seq<string>) {
    forall i :: 0 <= i < |caps| ==> caps[i] in list
  }

  lemma NothingAdded(defs: Definitions, seen: seq<string>)
    ensures Closed(defs, seen, seen)
  {}

  lemma OneAdded(defs: Definitions, seen: seq<string>, cap: string)
    requires NoDuplicates(seen) && cap !in seen
    ensures NoDuplicates(seen + [cap])
    ensures (seen + [cap])[|seen|] == cap
    ensures cap !in defs ==> Closed(defs, seen + [cap], seen)
  {}

  lemma ClosedAtRoot(defs: Definitions, list: seq<string>, cap: string, seen: seq<string>)
    requires cap in defs && seen + [cap] <= list
    requires Closed(defs, list, seen + [cap]) && AllIn(defs[cap].nested, list)
    ensures cap in list && Closed(defs, list, seen)
  {
    assert list[|seen|] == (seen + [cap])[|seen|] == cap;
    forall i | 0 <= i < |list| && list[i] !in seen && list[i] in defs ensures NestedListed(defs, list[i], list) {
      if list[i] in seen + [cap] {
        assert list[i] == cap;
      }
    }
  }

  lemma {:induction false} VisitLists(defs: Definitions, cap: string, seen: seq<string>)
    requires NoDuplicates(seen)
    ensures NoDuplicates(Visit(defs, cap, seen)) && cap in Visit(defs, cap, seen)
    ensures Closed(defs, Visit(defs, cap, seen), seen)
    decreases Unseen(defs, seen), 0, 0
  {
    if cap in seen {
      NothingAdded(defs, seen);
    } else if cap !in defs {
      OneAdded(defs, seen, cap);
    } else {
      FewerUnseen(defs, seen, seen);
      OneAdded(defs, seen, cap);
      VisitAllLists(defs, defs[cap].nested, seen + [cap]);
      ClosedAtRoot(defs, VisitAll(defs, defs[cap].nested, seen + [cap]), cap, seen);
    }
  }

  /** The walk lists its roots and, for everything it adds, all nested capabilities. */
  lemma {:induction false} VisitAllLists(defs: Definitions, caps: seq<string>, seen: seq<string>)
    requires NoDuplicates(seen)
    ensures NoDuplicates(VisitAll(defs, caps, seen)) && AllIn(caps, VisitAll(defs, caps, seen))
    ensures Closed(defs, VisitAll(defs, caps, seen), seen)
    decreases Unseen(defs, seen), 1, |caps|
  {
    if caps != [] {
      var next := Visit(defs, caps[0], seen);
      VisitLists(defs, caps[0], seen);
      FewerUnseen(defs, seen, next);
      VisitAllLists(defs, caps[1..], next);
      StillClosed(defs, VisitAll(defs, caps[1..], next), next, seen);
      StillIn(caps, VisitAll(defs, caps[1..], next), next);
    }
  }

  lemma StillClosed(defs: Definitions, list: seq<string>, next: seq<string>, seen: seq<string>)
    requires next <= list && Closed(defs, next, seen) && Closed(defs, list, next)
    ensures Closed(defs, list, seen)
  {
    forall i | 0 <= i < |list| && list[i] !in seen && list[i] in defs ensures NestedListed(defs, list[i], list) {
      if list[i] in next {
        var k :| 0 <= k < |next| && next[k] == list[i];
        assert NestedListed(defs, next[k], next);
        forall j | 0 <= j < |defs[list[i]].nested| ensures defs[list[i]].nested[j] in list {
          StillListed(defs[list[i]].nested[j], next, list);
        }
      }
    }
  }

  lemma StillListed(x: string, next: seq<string>, list: seq<string>)
    requires next <= list && x in next
    ensures x in list
  {
    var k :| 0 <= k < |next| && next[k] == x;
    assert list[k] == x;
  }

  lemma StillIn(caps: seq<string>, list: seq<string>, next: seq<string>)
    requires caps != [] && next <= list && caps[0] in next && AllIn(caps[1..], list)
    ensures AllIn(caps, list)
  {
    StillListed(caps[0], next, list);
    forall i | 0 <= i < |caps| ensures caps[i] in list {
      if i > 0 {
        assert caps[1..][i - 1] in list;
      }
    }
  }

  lemma ReachableStep(defs: Definitions, roots: set<string>, cap: string, nested: string)
    requires Reachable(defs, roots, cap) && cap in defs && nested in defs[cap].nested
    ensures Reachable(defs, roots, nested)
  {
    var p :| IsPath(defs, p) && p[0] in roots && p[|p| - 1] == cap;
    assert IsPath(defs, p + [nested]);
  }

  lemma {:induction false} VisitReaches(defs: Definitions, roots: set<string>, cap: string, seen: seq<string>)
    requires Reachable(defs, roots, cap)
    ensures forall c :: c in Visit(defs, cap, seen) && c !in seen ==> Reachable(defs, roots, c)
    decreases Unseen(defs, seen), 0, 0
  {
    if cap !in seen && cap in defs {
      FewerUnseen(defs, seen, seen);
      forall n | n in defs[cap].nested ensures Reachable(defs, roots, n) {
        ReachableStep(defs, roots, cap, n);
      }
      VisitAllReaches(defs, roots, defs[cap].nested, seen + [cap]);
    }
  }

  lemma {:induction false} VisitAllReaches(defs: Definitions, roots: set<string>, caps: seq<string>, seen: seq<string>)
    requires forall c :: c in caps ==> Reachable(defs, roots, c)
    ensures forall c :: c in VisitAll(defs, caps, seen) && c !in seen ==> Reachable(defs, roots, c)
    decreases Unseen(defs, seen), 1, |caps|
  {
    if caps != [] {
      var next := Visit(defs, caps[0], seen);
      VisitReaches(defs, roots, caps[0], seen);
      FewerUnseen(defs, seen, next);
      VisitAllReaches(defs, roots, caps[1..], next);
    }
  }

  lemma {:induction false} ClosedContainsPath(defs: Definitions, list: seq<string>, p: seq<string>)
    requires IsPath(defs, p) && p[0] in list && Closed(defs, list, [])
    ensures p[|p| - 1] in list
  {
    if |p| > 1 {
      var i :| 0 <= i < |list| && list[i] == p[0];
      assert NestedListed(defs, list[i], list);
      ClosedContainsPath(defs, list, p[1..]);
    }
  }

  /** Expansion lists each id once, and exactly the ids reachable from the enabled ones. */
  lemma ExpansionIsReachability(defs: Definitions, enabled: seq<string>)
    ensures NoDuplicates(Expanded(defs, enabled))
    ensures forall c :: c in Expanded(defs, enabled) <==> Reachable(defs, SetOf(enabled), c)
  {
    var (list, roots) := (Expanded(defs, enabled), SetOf(enabled));
    VisitAllLists(defs, enabled, []);
    forall c | c in enabled ensures Reachable(defs, roots, c) {
      assert IsPath(defs, [c]);
    }
    VisitAllReaches(defs, roots, enabled, []);
    forall c | Reachable(defs, roots, c) ensures c in list {
      var p :| IsPath(defs, p) && p[0] in roots && p[|p| - 1] == c;
      ClosedContainsPath(defs, list, p);
    }
  }

  lemma {:induction false} NotDeniedMembers(caps: seq<string>, denied: set<string>)
    ensures forall c :: c in NotDenied(caps, denied) <==> c in caps && c !in denied
  {
    if caps != [] {
      NotDeniedMembers(caps[1..], denied);
      assert forall c :: c in caps <==> c == caps[0] || c in caps[1..];
    }
  }

  /** The active set depends only on the set of enabled ids. */
  lemma SameKeySameActive(defs: Definitions, a: seq<string>, b: seq<string>, denied: set<string>)
    requires SetOf(a) == SetOf(b)
    ensures SetOf(Active(defs, a, denied)) == SetOf(Active(defs, b, denied))
  {
    ExpansionIsReachability(defs, a);
    ExpansionIsReachability(defs, b);
    NotDeniedMembers(Expanded(defs, a), denied);
    NotDeniedMembers(Expanded(defs, b), denied);
  }

  // ---------------------------------------------------------------- what an adapter holds

  /** All an adapter is built from but the enabled list; `date` is the day it is built. */
  datatype World = World(basis: string, date: string, defs: Definitions, denied: set<string>, known: set<string>)

  datatype Adapter = Adapter(prompt: string, tools: seq<string>, servers: seq<string>)

  function Build(w: World, enabled: seq<string>): Adapter {
    var active := Active(w.defs, enabled, w.denied);
    Adapter(SystemPrompt(w.basis, w.date, w.defs, active), AgentTools(w.defs, active, w.known),
            Servers(w.defs, active, []))
  }

  lemma {:induction false} AddServersMembers(servers: seq<string>, more: seq<string>)
    ensures forall s :: s in AddServers(servers, more) <==> s in servers || s in more
    decreases |more|
  {
    if more != [] {
      AddServersMembers(if more[0] in servers then servers else servers + [more[0]], more[1..]);
      assert forall s :: s in more <==> s == more[0] || s in more[1..];
    }
  }

  lemma {:induction false} ServersMembers(defs: Definitions, active: seq<string>, servers: seq<string>)
    ensures forall s :: s in Servers(defs, active, servers) <==>
                s in servers || exists c :: c in active && c in defs && s in defs[c].mcpServers
    decreases |active|
  {
    if active != [] {
      var c := active[0];
      var next := if c in defs then AddServers(servers, defs[c].mcpServers) else servers;
      ServersMembers(defs, active[1..], next);
      if c in defs {
        AddServersMembers(servers, defs[c].mcpServers);
      }
      assert forall x :: x in active <==> x == c || x in active[1..];
    }
  }

  /** Same key: same prompt, same tools in the same order, same set of MCP servers. */
  lemma SameKeySameAdapter(w: World, a: seq<string>, b: seq<string>)
    requires SetOf(a) == SetOf(b)
    ensures Build(w, a).prompt == Build(w, b).prompt && Build(w, a).tools == Build(w, b).tools
    ensures SetOf(Build(w, a).servers) == SetOf(Build(w, b).servers)
  {
    var (x, y) := (Active(w.defs, a, w.denied), Active(w.defs, b, w.denied));
    SameKeySameActive(w.defs, a, b, w.denied);
    assert forall c :: c in x <==> c in SetOf(x);
    assert forall c :: c in y <==> c in SetOf(y);
    assert EnabledToolIds(w.defs, x) == EnabledToolIds(w.defs, y);
    ServersMembers(w.defs, x, []);
    ServersMembers(w.defs, y, []);
  }

  const TWO_SERVERS := map["x" := Definition([], "", [], ["s"]), "y" := Definition([], "", [], ["t"])]

  /** The order of MCP servers does follow the list, so it is whatever was built first. */
  lemma ServerOrderFollowsList(w: World)
    requires w.defs == TWO_SERVERS && w.denied == {}
    ensures SetOf(["x", "y"]) == SetOf(["y", "x"])
    ensures Build(w, ["x", "y"]).servers == ["s", "t"] && Build(w, ["y", "x"]).servers == ["t", "s"]
  {
    TwoServers(w, "x", "y");
    TwoServers(w, "y", "x");
  }

  lemma {:induction false} VisitLeaf(defs: Definitions, cap: string, seen: seq<string>)
    requires cap in defs && defs[cap].nested == [] && cap !in seen
    ensures Visit(defs, cap, seen) == seen + [cap]
  {
    FewerUnseen(defs, seen, seen);
    assert VisitAll(defs, [], seen + [cap]) == seen + [cap];
  }

  lemma {:induction false} VisitLast(defs: Definitions, cap: string, seen: seq<string>)
    ensures VisitAll(defs, [cap], seen) == Visit(defs, cap, seen)
  {
    assert [cap][1..] == [];
    assert VisitAll(defs, [], Visit(defs, cap, seen)) == Visit(defs, cap, seen);
  }

  lemma ExpandTwo(defs: Definitions, a: string, b: string)
    requires a != b && a in defs && b in defs && defs[a].nested == [] && defs[b].nested == []
    ensures Expanded(defs, [a, b]) == [a, b]
  {
    VisitLeaf(defs, a, []);
    VisitLeaf(defs, b, [a]);
    VisitLast(defs, b, [a]);
    assert [] + [a] == [a] && [a] + [b] == [a, b] && [a, b][1..] == [b];
  }

  lemma {:induction false} ServersTwo(defs: Definitions, a: string, b: string, s: string, t: string)
    requires a in defs && b in defs && defs[a].mcpServers == [s] && defs[b].mcpServers == [t] && s != t
    ensures Servers(defs, [a, b], []) == [s, t]
  {
    assert [a, b][1..] == [b] && [b][1..] == [];
    assert AddServers([], [s]) == AddServers([s], []) == [s];
    assert AddServers([s], [t]) == AddServers([s, t], []) == [s, t];
    assert Servers(defs, [b], [s]) == Servers(defs, [], [s, t]);
  }

  lemma TwoServers(w: World, a: string, b: string)
    requires w.defs == TWO_SERVERS && w.denied == {} && a != b && a in TWO_SERVERS && b in TWO_SERVERS
    ensures Build(w, [a, b]).servers == [TWO_SERVERS[a].mcpServers[0], TWO_SERVERS[b].mcpServers[0]]
  {
    ExpandTwo(w.defs, a, b);
    assert [a, b][1..] == [b] && [b][1..] == [];
    assert NotDenied([b], {}) == [b] + NotDenied([], {});
    assert NotDenied([a, b], {}) == [a, b];
    ServersTwo(w.defs, a, b, w.defs[a].mcpServers[0], w.defs[b].mcpServers[0]);
  }

  // ---------------------------------------------------------------- the cache

  /** Built from some list with this key. */
  ghost predicate IsBuild(w: World, key: set<string>, adapter: Adapter) {
    exists e :: SetOf(e) == key && adapter == Build(w, e)
  }

  predicate AsGoodAs(adapter: Adapter, built: Adapter) {
    adapter.prompt == built.prompt && adapter.tools == built.tools && SetOf(adapter.servers) == SetOf(built.servers)
  }

  lemma AnyBuildWillDo(w: World, enabled: seq<string>)
    ensures IsBuild(w, SetOf(enabled), Build(w, enabled))
    ensures forall adapter :: IsBuild(w, SetOf(enabled), adapter) ==> AsGoodAs(adapter, Build(w, enabled))
  {
    forall adapter | IsBuild(w, SetOf(enabled), adapter) ensures AsGoodAs(adapter, Build(w, enabled)) {
      var e :| SetOf(e) == SetOf(enabled) && adapter == Build(w, e);
      SameKeySameAdapter(w, e, enabled);
    }
  }

  ghost predicate AllBuilt(w: World, cache: map<set<string>, Adapter>) {
    forall key :: key in cache ==> IsBuild(w, key, cache[key])
  }

  lemma AddBuild(w: World, cache: map<set<string>, Adapter>, key: set<string>, adapter: Adapter)
    requires AllBuilt(w, cache) && IsBuild(w, key, adapter)
    ensures AllBuilt(w, cache[key := adapter])
  {}

  class TurnAdapterCache {
    var cache: map<set<string>, Adapter>

    constructor (w: World, enabled: seq<string>)
      ensures AllBuilt(w, cache) && cache.Keys == {SetOf(enabled)}
    {
      cache := map[SetOf(enabled) := Build(w, enabled)];
      AnyBuildWillDo(w, enabled);
    }

    /** While the world stays the same, a cached adapter is as good as a new one. */
    method GetOrBuild(w: World, enabled: seq<string>) returns (adapter: Adapter)
      requires AllBuilt(w, cache)
      modifies this
      ensures cache == if SetOf(enabled) in old(cache) then old(cache) else old(cache)[SetOf(enabled) := adapter]
      ensures SetOf(enabled) in cache && adapter == cache[SetOf(enabled)]
      ensures AllBuilt(w, cache) && AsGoodAs(adapter, Build(w, enabled))
    {
      var key := SetOf(enabled);
      var built := Build(w, enabled);
      AnyBuildWillDo(w, enabled);
      if key in cache {
        adapter := cache[key];
        assert IsBuild(w, key, adapter);
      } else {
        adapter := built;
        AddBuild(w, cache, key, adapter);
        cache := cache[key := adapter];
      }
    }
  }

  /** The day is not in the key: an adapter built on another day differs exactly in its date. */
  lemma DateIsPartOfThePrompt(w: World, date: string, enabled: seq<string>)
    ensures Build(w.(date := date), enabled) == Build(w, enabled) <==> date == w.date
  {
    var active := Active(w.defs, enabled, w.denied);
    var sections := Sections(w.defs, Sorted(SetOf(active)));
    DateInJoin(w.basis, w.date, date, sections);
  }

  function DateLine(date: string): string { "Today's date is " + date + "." }

  lemma {:induction false} DateInJoin(basis: string, a: string, b: string, sections: seq<string>)
    ensures Join("\n\n", [basis, DateLine(a)] + sections) == Join("\n\n", [basis, DateLine(b)] + sections) ==> a == b
  {
    var rest := if sections == [] then "" else "\n\n" + Join("\n\n", sections);
    JoinThree(basis, DateLine(a), sections);
    JoinThree(basis, DateLine(b), sections);
    var front := basis + "\n\n" + "Today's date is ";
    assert Join("\n\n", [basis, DateLine(a)] + sections) == front + a + ("." + rest);
    assert Join("\n\n", [basis, DateLine(b)] + sections) == front + b + ("." + rest);
    Cancel(front, a, b, "." + rest);
  }

  lemma {:induction false} JoinThree(basis: string, line: string, sections: seq<string>)
    ensures Join("\n\n", [basis, line] + sections)
         == basis + "\n\n" + (line + if sections == [] then "" else "\n\n" + Join("\n\n", sections))
  {
    var parts := [basis, line] + sections;
    assert parts[1..] == [line] + sections && parts[1..][1..] == sections;
  }

  lemma Cancel(front: string, a: string, b: string, back: string)
    ensures front + a + back == front + b + back ==> a == b
  {
    if front + a + back == front + b + back {
      var whole := front + a + back;
      assert |a| == |b|;
      assert a == whole[|front|..|front| + |a|];
      assert b == (front + b + back)[|front|..|front| + |b|];
    }
  }
}
