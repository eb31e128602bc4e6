/** What an adapter holds: which capabilities are active, and what prompt, tools and servers they give. */
module AdapterContents {
  import opened AdapterCache
  import opened Capabilities
  import opened Sequences
  import opened Strings

  /** Active is what is reachable from an enabled capability and not denied; nothing is listed twice. */
  lemma {:induction false} ActiveIs(defs: Definitions, enabled: seq<string>, denied: set<string>, cap: string)
    ensures cap in Active(defs, enabled, denied) <==> Reachable(defs, SetOf(enabled), cap) && cap !in denied
    ensures NoDuplicates(Active(defs, enabled, denied))
  {
    ExpansionIsReachability(defs, enabled);
    NotDeniedMembers(Expanded(defs, enabled), denied);
    NotDeniedOnce(Expanded(defs, enabled), denied);
  }

  lemma {:induction false} NotDeniedOnce(caps: seq<string>, denied: set<string>)
    requires NoDuplicates(caps)
    ensures NoDuplicates(NotDenied(caps, denied))
  {
    if caps != [] {
      assert forall i, j :: 0 <= i < j < |caps[1..]| ==> caps[1..][i] == caps[i + 1] && caps[1..][j] == caps[j + 1];
      NotDeniedOnce(caps[1..], denied);
      NotDeniedMembers(caps[1..], denied);
      var rest := NotDenied(caps[1..], denied);
      forall j | 0 <= j < |rest| ensures rest[j] != caps[0] {
        assert rest[j] in caps[1..];
        var k :| 0 <= k < |caps[1..]| && caps[1..][k] == rest[j];
        assert caps[k + 1] == rest[j];
      }
    }
  }

  /** A capability is listed in front of those nested in it, unless they are listed already. */
  lemma {:induction false} ListedFirst(defs: Definitions, cap: string, seen: seq<string>)
    requires cap !in seen
    ensures |seen| < |Visit(defs, cap, seen)| && Visit(defs, cap, seen)[|seen|] == cap
  {
    if cap in defs {
      FewerUnseen(defs, seen, seen);
      var list := VisitAll(defs, defs[cap].nested, seen + [cap]);
      assert seen + [cap] <= list && list[|seen|] == (seen + [cap])[|seen|];
    }
  }

  // ---------------------------------------------------------------- tools

  /** Some active capability binds the tool and has it enabled. */
  ghost predicate Grants(defs: Definitions, active: seq<string>, tool: string) {
    exists c, b :: c in active && c in defs && b in defs[c].tools && b.enabled && b.toolId == tool
  }

  lemma EnabledIff(defs: Definitions, active: seq<string>, tool: string)
    ensures tool in EnabledToolIds(defs, active) <==> Grants(defs, active, tool)
  {
    if c, b :| c in active && c in defs && b in defs[c].tools && b.enabled && b.toolId == tool {
      assert tool in BoundTools(defs[c].tools);
    }
  }

  predicate Ascending(s: seq<string>) {
    forall i, j :: 0 <= i < j < |s| ==> AtMost(s[i], s[j]) && s[i] != s[j]
  }

  lemma {:induction false} KnownAre(sorted: seq<string>, known: set<string>)
    ensures forall t :: t in Known(sorted, known) <==> t in sorted && t in known
    ensures Ascending(sorted) ==> Ascending(Known(sorted, known))
  {
    if sorted != [] {
      var (first, tail) := (sorted[0], sorted[1..]);
      KnownAre(tail, known);
      assert forall t :: t in sorted <==> t == first || t in tail;
      var rest := Known(tail, known);
      if Ascending(sorted) {
        assert forall i, j :: 0 <= i < j < |tail| ==> tail[i] == sorted[i + 1] && tail[j] == sorted[j + 1];
        forall j | 0 <= j < |rest| ensures AtMost(first, rest[j]) && first != rest[j] {
          assert rest[j] in tail;
          var k :| 0 <= k < |tail| && tail[k] == rest[j];
          assert sorted[k + 1] == rest[j];
        }
      }
    }
  }

  /** The agent's tools: exactly the known ones some active capability grants, in sorted order, each once. */
  lemma {:induction false} ToolsAre(defs: Definitions, active: seq<string>, known: set<string>)
    ensures Ascending(AgentTools(defs, active, known))
    ensures forall t :: t in AgentTools(defs, active, known) <==> t in known && Grants(defs, active, t)
  {
    var ids := EnabledToolIds(defs, active);
    SortedAscends(ids);
    KnownAre(Sorted(ids), known);
    forall t ensures t in ids <==> Grants(defs, active, t) {
      EnabledIff(defs, active, t);
    }
  }

  // ---------------------------------------------------------------- the prompt

  predicate Speaks(defs: Definitions, cap: string) {
    cap in defs && Strip(defs[cap].prompt) != ""
  }

  lemma TailAscends(sorted: seq<string>)
    requires Ascending(sorted) && sorted != []
    ensures Ascending(sorted[1..]) && forall x :: x in sorted[1..] ==> AtMost(sorted[0], x) && sorted[0] != x
  {
    var tail := sorted[1..];
    assert forall i :: 0 <= i < |tail| ==> tail[i] == sorted[i + 1];
  }

  lemma {:induction false} FirstAscends(first: string, tail: seq<string>, caps: seq<string>)
    requires forall x :: x in tail ==> AtMost(first, x) && first != x
    requires Ascending(caps) && forall c :: c in caps ==> c in tail
    ensures Ascending([first] + caps)
  {
    var all := [first] + caps;
    forall i, j | 0 <= i < j < |all| ensures AtMost(all[i], all[j]) && all[i] != all[j] {
      assert all[j] == caps[j - 1] && caps[j - 1] in caps;
      assert i > 0 ==> all[i] == caps[i - 1];
    }
  }

  /** The capabilities with something to say, as a sublist. */
  lemma {:induction false} SectionsAre(defs: Definitions, sorted: seq<string>) returns (caps: seq<string>)
    requires Ascending(sorted)
    ensures Ascending(caps) && forall c :: c in caps <==> c in sorted && Speaks(defs, c)
    ensures |Sections(defs, sorted)| == |caps|
    ensures forall i :: 0 <= i < |caps| ==> caps[i] in defs && Sections(defs, sorted)[i] == Strip(defs[caps[i]].prompt)
  {
    if sorted == [] {
      caps := [];
    } else {
      var (first, tail) := (sorted[0], sorted[1..]);
      TailAscends(sorted);
      caps := SectionsAre(defs, tail);
      assert forall c :: c in sorted <==> c == first || c in tail;
      if Speaks(defs, first) {
        FirstAscends(first, tail, caps);
        assert Sections(defs, sorted) == [Strip(defs[first].prompt)] + Sections(defs, tail);
        caps := [first] + caps;
      } else {
        assert Sections(defs, sorted) == Sections(defs, tail);
      }
    }
  }

  /**
   * The prompt: the base, the date, then the prompt of every active capability that has one, in sorted
   * order, with empty lines between them.
   */
  lemma {:induction false} PromptIs(basis: string, date: string, defs: Definitions, active: seq<string>)
    returns (caps: seq<string>, sections: seq<string>)
    ensures Ascending(caps) && forall c :: c in caps <==> c in active && Speaks(defs, c)
    ensures |sections| == |caps| && forall i :: 0 <= i < |caps| ==> caps[i] in defs && sections[i] == Strip(defs[caps[i]].prompt)
    ensures SystemPrompt(basis, date, defs, active)
         == basis + "\n\n" + ("Today's date is " + date + "." + if sections == [] then "" else "\n\n" + Join("\n\n", sections))
  {
    SortedAscends(SetOf(active));
    caps := SectionsAre(defs, Sorted(SetOf(active)));
    sections := Sections(defs, Sorted(SetOf(active)));
    JoinThree(basis, "Today's date is " + date + ".", sections);
  }

  // ---------------------------------------------------------------- servers

  /** All servers the active capabilities mention, in order, with repetitions. */
  function Mentioned(defs: Definitions, active: seq<string>): seq<string> {
    if active == [] then []
    else (if active[0] in defs then defs[active[0]].mcpServers else []) + Mentioned(defs, active[1..])
  }

  lemma {:induction false} AddServersSplit(servers: seq<string>, a: seq<string>, b: seq<string>)
    ensures AddServers(servers, a + b) == AddServers(AddServers(servers, a), b)
    decreases |a|
  {
    if a == [] {
      assert a + b == b;
    } else {
      assert (a + b)[1..] == a[1..] + b;
      AddServersSplit(if a[0] in servers then servers else servers + [a[0]], a[1..], b);
    }
  }

  lemma {:induction false} ServersAreMentioned(defs: Definitions, active: seq<string>, servers: seq<string>)
    ensures Servers(defs, active, servers) == AddServers(servers, Mentioned(defs, active))
    decreases |active|
  {
    if active != [] {
      var more := if active[0] in defs then defs[active[0]].mcpServers else [];
      AddServersSplit(servers, more, Mentioned(defs, active[1..]));
      ServersAreMentioned(defs, active[1..], AddServers(servers, more));
    }
  }

  /** Where `x` is mentioned first. */
  function FirstAt(xs: seq<string>, x: string): (i: nat)
    ensures i <= |xs| && (i < |xs| <==> x in xs) && (i < |xs| ==> xs[i] == x)
    ensures forall j :: 0 <= j < i ==> xs[j] != x
  {
    if xs == [] || xs[0] == x then 0 else 1 + FirstAt(xs[1..], x)
  }

  lemma {:induction false} FirstAtStays(xs: seq<string>, y: string, x: string)
    ensures x in xs ==> FirstAt(xs + [y], x) == FirstAt(xs, x)
    ensures x !in xs && x == y ==> FirstAt(xs + [y], x) == |xs|
  {
    var i := FirstAt(xs + [y], x);
    if x in xs {
      var k := FirstAt(xs, x);
      assert (xs + [y])[k] == x && i <= k;
      assert i < |xs| && (xs + [y])[i] == xs[i];
    } else if x == y {
      assert (xs + [y])[|xs|] == x;
      assert forall j :: 0 <= j < |xs| ==> (xs + [y])[j] == xs[j] && xs[j] in xs;
    }
  }

  /** Each mentioned server once, in the order of first mention. */
  ghost predicate FirstMentions(list: seq<string>, mentioned: seq<string>) {
    && (forall s :: s in list <==> s in mentioned)
    && (forall i, j :: 0 <= i < j < |list| ==> FirstAt(mentioned, list[i]) < FirstAt(mentioned, list[j]))
  }

  lemma {:induction false} AddServersAre(mentioned: seq<string>)
    ensures FirstMentions(AddServers([], mentioned), mentioned)
  {
    if mentioned != [] {
      var (front, last) := (mentioned[..|mentioned| - 1], mentioned[|mentioned| - 1]);
      assert mentioned == front + [last];
      AddServersAre(front);
      AddServersSplit([], front, [last]);
      var list := AddServers([], front);
      assert AddServers(list, [last]) == if last in list then list else list + [last];
      OneMoreMention(list, front, last);
    }
  }

  lemma {:induction false} ListInFront(list: seq<string>, front: seq<string>)
    requires FirstMentions(list, front)
    ensures forall i :: 0 <= i < |list| ==> list[i] in front && FirstAt(front, list[i]) < |front|
  {
    forall i | 0 <= i < |list| ensures list[i] in front && FirstAt(front, list[i]) < |front| {
      assert list[i] in list;
    }
  }

  lemma {:induction false} SameMentions(list: seq<string>, front: seq<string>, last: string)
    requires FirstMentions(list, front) && last in list
    ensures FirstMentions(list, front + [last])
  {
    ListInFront(list, front);
    forall i, j | 0 <= i < j < |list| ensures FirstAt(front + [last], list[i]) < FirstAt(front + [last], list[j]) {
      FirstAtStays(front, last, list[i]);
      FirstAtStays(front, last, list[j]);
    }
    assert forall s :: s in front + [last] <==> s in front || s == last;
  }

  lemma {:induction false} NewMention(list: seq<string>, front: seq<string>, last: string)
    requires FirstMentions(list, front) && last !in list
    ensures FirstMentions(list + [last], front + [last])
  {
    var all := list + [last];
    ListInFront(list, front);
    assert last !in front;
    FirstAtStays(front, last, last);
    forall i, j | 0 <= i < j < |all| ensures FirstAt(front + [last], all[i]) < FirstAt(front + [last], all[j]) {
      assert all[i] == list[i];
      FirstAtStays(front, last, list[i]);
      if j < |list| {
        assert all[j] == list[j];
        FirstAtStays(front, last, list[j]);
      }
    }
    assert forall s :: s in front + [last] <==> s in front || s == last;
    assert forall s :: s in all <==> s in list || s == last;
  }

  lemma {:induction false} OneMoreMention(list: seq<string>, front: seq<string>, last: string)
    requires FirstMentions(list, front)
    ensures FirstMentions(if last in list then list else list + [last], front + [last])
  {
    if last in list {
      SameMentions(list, front, last);
    } else {
      NewMention(list, front, last);
    }
  }

  /** The servers of an adapter: those its active capabilities mention, each once, first mentioned first. */
  lemma {:induction false} ServersAre(defs: Definitions, active: seq<string>)
    ensures FirstMentions(Servers(defs, active, []), Mentioned(defs, active))
  {
    ServersAreMentioned(defs, active, []);
    AddServersAre(Mentioned(defs, active));
  }

  /** An adapter holds the prompt, the tools and the servers of the capabilities active in its world. */
  lemma {:induction false} AdapterIs(w: World, enabled: seq<string>)
    ensures var (active, adapter) := (Active(w.defs, enabled, w.denied), Build(w, enabled));
            && adapter.prompt == SystemPrompt(w.basis, w.date, w.defs, active)
            && Ascending(adapter.tools)
            && (forall t :: t in adapter.tools <==> t in w.known && Grants(w.defs, active, t))
            && FirstMentions(adapter.servers, Mentioned(w.defs, active))
  {
    var active := Active(w.defs, enabled, w.denied);
    ToolsAre(w.defs, active, w.known);
    ServersAre(w.defs, active);
  }
}
