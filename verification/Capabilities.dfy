/** Nested capabilities and what the active ones grant (src/assistant/core/capabilities/loader.py and others). */
module Capabilities {
  import opened Sequences
  import opened Strings

  datatype Binding = Binding(toolId: string, enabled: bool)

  datatype Definition = Definition(nested: seq<string>, prompt: string, tools: seq<Binding>, mcpServers: seq<string>)

  type Definitions = map<string, Definition>

  // ---------------------------------------------------------------- depth-first expansion

  function Unseen(defs: Definitions, seen: seq<string>): nat {
    |defs.Keys - SetOf(seen)|
  }

  lemma FewerUnseen(defs: Definitions, seen: seq<string>, more: seq<string>)
    ensures seen <= more ==> Unseen(defs, more) <= Unseen(defs, seen)
    ensures forall c :: c in defs && c !in seen ==> Unseen(defs, seen + [c]) < Unseen(defs, seen)
  {
    if seen <= more {
      Smaller(defs.Keys - SetOf(more), defs.Keys - SetOf(seen));
    }
    forall c | c in defs && c !in seen ensures Unseen(defs, seen + [c]) < Unseen(defs, seen) {
      assert defs.Keys - SetOf(seen) == (defs.Keys - SetOf(seen + [c])) + {c};
    }
  }

  lemma Smaller<T>(a: set<T>, b: set<T>)
    requires a <= b
    ensures |a| <= |b|
  {
    assert b == a + (b - a);
  }

  /** The list after `_expand(cap)`: a capability already listed is not visited again. */
  function Visit(defs: Definitions, cap: string, seen: seq<string>): (list: seq<string>)
    ensures seen <= list
    decreases Unseen(defs, seen), 0, 0
  {
    if cap in seen then seen
    else if cap !in defs then seen + [cap]
    else
      FewerUnseen(defs, seen, seen);
      VisitAll(defs, defs[cap].nested, seen + [cap])
  }

  function VisitAll(defs: Definitions, caps: seq<string>, seen: seq<string>): (list: seq<string>)
    ensures seen <= list
    decreases Unseen(defs, seen), 1, |caps|
  {
    if caps == [] then seen
    else
      var next := Visit(defs, caps[0], seen);
      FewerUnseen(defs, seen, next);
      VisitAll(defs, caps[1..], next)
  }

  /** `expand_nested_capabilities` */
  function Expanded(defs: Definitions, enabled: seq<string>): seq<string> {
    VisitAll(defs, enabled, [])
  }

  /** The list and the set that the nested function shares with its caller. */
  class Expansion {
    var result: seq<string>
    var seen: set<string>

    constructor ()
      ensures result == [] && seen == SetOf(result)
    {
      result, seen := [], {};
    }

    method Expand(defs: Definitions, cap: string)
      requires seen == SetOf(result)
      modifies this
      ensures seen == SetOf(result)
      ensures result == Visit(defs, cap, old(result))
      decreases Unseen(defs, result), 0, 0
    {
      if cap in seen {
        return;
      }
      FewerUnseen(defs, result, result);
      seen := seen + {cap};
      result := result + [cap];
      if cap in defs {
        ExpandAll(defs, defs[cap].nested);
      }
    }

    method ExpandAll(defs: Definitions, caps: seq<string>)
      requires seen == SetOf(result)
      modifies this
      ensures seen == SetOf(result)
      ensures result == VisitAll(defs, caps, old(result))
      decreases Unseen(defs, result), 1, |caps|
    {
      ghost var before := result;
      var i := 0;
      while i < |caps|
        invariant 0 <= i <= |caps|
        invariant seen == SetOf(result)
        invariant before <= result
        invariant VisitAll(defs, caps[i..], result) == VisitAll(defs, caps, before)
      {
        FewerUnseen(defs, before, result);
        assert caps[i..][1..] == caps[i + 1..];
        Expand(defs, caps[i]);
        i := i + 1;
      }
    }
  }

  method ExpandNestedCapabilities(enabled: seq<string>, defs: Definitions) returns (result: seq<string>)
    ensures result == Expanded(defs, enabled)
  {
    var expansion := new Expansion();
    expansion.ExpandAll(defs, enabled);
    result := expansion.result;
  }

  // ---------------------------------------------------------------- what active capabilities grant

  function NotDenied(caps: seq<string>, denied: set<string>): seq<string> {
    if caps == [] then []
    else (if caps[0] !in denied then [caps[0]] else []) + NotDenied(caps[1..], denied)
  }

  /** `_active_capabilities`: expanded, denied ones removed. */
  function Active(defs: Definitions, enabled: seq<string>, denied: set<string>): seq<string> {
    NotDenied(Expanded(defs, enabled), denied)
  }

  function BoundTools(tools: seq<Binding>): set<string> {
    set b | b in tools && b.enabled :: b.toolId
  }

  /** The first-party tools some active capability binds. */
  function EnabledToolIds(defs: Definitions, active: seq<string>): set<string> {
    set c, t | c in active && c in defs && t in BoundTools(defs[c].tools) :: t
  }

  function KnownOne(tool: string, known: set<string>): seq<string> {
    if tool in known then [tool] else []
  }

  /** The known tools among them, in sorted order. */
  function Known(sorted: seq<string>, known: set<string>): seq<string> {
    if sorted == [] then []
    else KnownOne(sorted[0], known) + Known(sorted[1..], known)
  }

  function AgentTools(defs: Definitions, active: seq<string>, known: set<string>): seq<string> {
    Known(Sorted(EnabledToolIds(defs, active)), known)
  }

  function AddServers(servers: seq<string>, more: seq<string>): seq<string>
    decreases |more|
  {
    if more == [] then servers
    else AddServers(if more[0] in servers then servers else servers + [more[0]], more[1..])
  }

  /** `collect_mcp_server_ids`: first seen first. */
  function Servers(defs: Definitions, active: seq<string>, servers: seq<string>): seq<string>
    decreases |active|
  {
    if active == [] then servers
    else Servers(defs, active[1..],
                 if active[0] in defs then AddServers(servers, defs[active[0]].mcpServers) else servers)
  }

  function Section(defs: Definitions, cap: string): seq<string> {
    if cap in defs && Strip(defs[cap].prompt) != "" then [Strip(defs[cap].prompt)] else []
  }

  function Sections(defs: Definitions, sorted: seq<string>): seq<string> {
    if sorted == [] then []
    else Section(defs, sorted[0]) + Sections(defs, sorted[1..])
  }

  /** `_compose_system_prompt`; the active list has no duplicates, so sorting it is sorting its set. */
  function SystemPrompt(basis: string, date: string, defs: Definitions, active: seq<string>): string {
    Join("\n\n", [basis, "Today's date is " + date + "."] + Sections(defs, Sorted(SetOf(active))))
  }

  method CollectEnabledToolIds(defs: Definitions, active: seq<string>) returns (toolIds: set<string>)
    ensures toolIds == EnabledToolIds(defs, active)
  {
    toolIds := {};
    var i := 0;
    while i < |active|
      invariant 0 <= i <= |active|
      invariant toolIds == EnabledToolIds(defs, active[..i])
    {
      assert active[..i + 1] == active[..i] + [active[i]];
      if active[i] in defs {
        var more := CollectBoundTools(defs[active[i]].tools);
        toolIds := toolIds + more;
      }
      i := i + 1;
    }
    assert active[..i] == active;
  }

  method CollectBoundTools(tools: seq<Binding>) returns (toolIds: set<string>)
    ensures toolIds == BoundTools(tools)
  {
    toolIds := {};
    var j := 0;
    while j < |tools|
      invariant 0 <= j <= |tools|
      invariant toolIds == BoundTools(tools[..j])
    {
      assert tools[..j + 1] == tools[..j] + [tools[j]];
      if tools[j].enabled {
        toolIds := toolIds + {tools[j].toolId};
      }
      j := j + 1;
    }
    assert tools[..j] == tools;
  }

  method CollectKnown(sorted: seq<string>, known: set<string>) returns (tools: seq<string>)
    ensures tools == Known(sorted, known)
  {
    tools := [];
    var i := 0;
    while i < |sorted|
      invariant 0 <= i <= |sorted|
      invariant tools + Known(sorted[i..], known) == Known(sorted, known)
    {
      assert sorted[i..][1..] == sorted[i + 1..];
      Assoc(tools, KnownOne(sorted[i], known), Known(sorted[i + 1..], known));
      if sorted[i] in known {
        tools := tools + [sorted[i]];
      }
      i := i + 1;
    }
  }

  method GetAgentTools(defs: Definitions, active: seq<string>, known: set<string>) returns (tools: seq<string>)
    ensures tools == AgentTools(defs, active, known)
  {
    var ids := CollectEnabledToolIds(defs, active);
    tools := CollectKnown(Sorted(ids), known);
  }

  method CollectMcpServerIds(defs: Definitions, active: seq<string>) returns (serverIds: seq<string>)
    ensures serverIds == Servers(defs, active, [])
  {
    serverIds := [];
    var i := 0;
    while i < |active|
      invariant 0 <= i <= |active|
      invariant Servers(defs, active[i..], serverIds) == Servers(defs, active, [])
    {
      if active[i] in defs {
        var more := defs[active[i]].mcpServers;
        ghost var before := serverIds;
        var j := 0;
        while j < |more|
          invariant 0 <= j <= |more|
          invariant AddServers(serverIds, more[j..]) == AddServers(before, more)
        {
          if more[j] !in serverIds {
            serverIds := serverIds + [more[j]];
          }
          j := j + 1;
        }
      }
      i := i + 1;
    }
  }

  method ComposeSystemPrompt(basis: string, date: string, defs: Definitions, active: seq<string>) returns (prompt: string)
    ensures prompt == SystemPrompt(basis, date, defs, active)
  {
    var sections := CollectSections(defs, Sorted(SetOf(active)));
    prompt := Join("\n\n", [basis, "Today's date is " + date + "."] + sections);
  }

  method CollectSections(defs: Definitions, sorted: seq<string>) returns (parts: seq<string>)
    ensures parts == Sections(defs, sorted)
  {
    parts := [];
    var i := 0;
    while i < |sorted|
      invariant 0 <= i <= |sorted|
      invariant parts + Sections(defs, sorted[i..]) == Sections(defs, sorted)
    {
      assert sorted[i..][1..] == sorted[i + 1..];
      Assoc(parts, Section(defs, sorted[i]), Sections(defs, sorted[i + 1..]));
      if sorted[i] in defs && Strip(defs[sorted[i]].prompt) != "" {
        parts := parts + [Strip(defs[sorted[i]].prompt)];
      }
      i := i + 1;
    }
  }
}
