/** The handoff graph: `build_registry`, and the startup check for gated tools without a gate. */
module Agents {
  import opened Names
  import T = Transcript

  type AgentId = nat      // an agent object
  type Tool = nat

  datatype Agent = Agent(name: Name, tools: seq<Tool>, handoffs: seq<AgentId>)

  type Graph = map<AgentId, Agent>

  predicate Closed(g: Graph) {
    forall a, i {:trigger g[a].handoffs[i]} | a in g && 0 <= i < |g[a].handoffs| :: g[a].handoffs[i] in g
  }

  // ---- Handoffs, and the transfers that a run offers ----

  /** Which agents each agent leads to. */
  type Links = map<AgentId, set<AgentId>>

  /** Every handoff that is declared. */
  function Handoffs(g: Graph): Links {
    map a | a in g :: set b | b in g[a].handoffs
  }

  predicate Safe(c: char) {
    'A' <= c <= 'Z' || 'a' <= c <= 'z' || '0' <= c <= '9' || c == '_' || c == '-'
  }

  /** `tool_name`: every character outside `[A-Za-z0-9_-]` becomes a dash. */
  function ToolName(n: Name): string {
    seq(|n.text|, i requires 0 <= i < |n.text| => if Safe(n.text[i]) then n.text[i] else '-')
  }

  /** `_transfer_tool_name`. */
  function TransferTool(n: Name): Name {
    Name("transfer_to_" + ToolName(n))
  }

  /** Letters, digits, dashes and underscores of the name are kept in the tool's, anything else becomes a
      dash. */
  lemma TransferToolIs(n: Name)
    ensures |TransferTool(n).text| == |"transfer_to_"| + |n.text| && "transfer_to_" <= TransferTool(n).text
    ensures forall i | 0 <= i < |n.text| ::
      var c, d := n.text[i], TransferTool(n).text[|"transfer_to_"| + i];
      d == if ('a' <= c <= 'z') || ('A' <= c <= 'Z') || ('0' <= c <= '9') || c == '-' || c == '_' then c else '-'
  {
  }

  /** `handoff_by_tool`: of the handoffs with one transfer tool the last is kept. */
  function TransferTable(g: Graph, hs: seq<AgentId>): map<Name, AgentId>
    requires forall h | h in hs :: h in g
  {
    if hs == [] then map[]
    else
      var last := hs[|hs| - 1];
      TransferTable(g, hs[..|hs| - 1])[TransferTool(g[last].name) := last]
  }

  /** The transfers that a run can take. */
  function Transfers(g: Graph): Links
    requires Closed(g)
  {
    map a | a in g :: TransferTable(g, g[a].handoffs).Values
  }

  /** Handoff `i` is the last with transfer tool `tool`. */
  ghost predicate LastWith(g: Graph, hs: seq<AgentId>, tool: Name, i: int)
    requires forall h | h in hs :: h in g
  {
    && 0 <= i < |hs| && TransferTool(g[hs[i]].name) == tool
    && forall j | i < j < |hs| :: TransferTool(g[hs[j]].name) != tool
  }

  /** The table holds, for each transfer tool among the handoffs, the last handoff with it. */
  lemma {:induction false} TableHoldsLast(g: Graph, hs: seq<AgentId>, tool: Name)
    requires forall h | h in hs :: h in g
    ensures tool in TransferTable(g, hs) <==> exists i :: 0 <= i < |hs| && TransferTool(g[hs[i]].name) == tool
    ensures tool in TransferTable(g, hs) ==> exists i :: LastWith(g, hs, tool, i) && hs[i] == TransferTable(g, hs)[tool]
    decreases |hs|
  {
    hide TransferTool;
    if hs != [] {
      var n := |hs| - 1;
      TableHoldsLast(g, hs[..n], tool);
      assert forall i | 0 <= i < n :: hs[..n][i] == hs[i];
      if TransferTool(g[hs[n]].name) == tool {
        assert LastWith(g, hs, tool, n);
      } else if tool in TransferTable(g, hs[..n]) {
        var i :| LastWith(g, hs[..n], tool, i) && hs[..n][i] == TransferTable(g, hs[..n])[tool];
        assert LastWith(g, hs, tool, i);
      }
    }
  }

  lemma InTable(g: Graph, hs: seq<AgentId>, b: AgentId) returns (tool: Name)
    requires (forall h | h in hs :: h in g) && b in TransferTable(g, hs).Values
    ensures tool in TransferTable(g, hs) && TransferTable(g, hs)[tool] == b && b in hs
      && TransferTool(g[b].name) == tool
  {
    hide TransferTool;
    tool :| tool in TransferTable(g, hs) && TransferTable(g, hs)[tool] == b;
    TableHoldsLast(g, hs, tool);
  }

  predicate LinkedBy(l: Links, m: Links) {
    forall a {:trigger l[a]} | a in l :: a in m && l[a] <= m[a]
  }

  lemma TransfersAreHandoffs(g: Graph)
    requires Closed(g)
    ensures LinkedBy(Transfers(g), Handoffs(g)) && LinkedBy(Handoffs(g), Handoffs(g))
  {
    forall a, b | a in g && b in Transfers(g)[a] ensures b in Handoffs(g)[a] {
      var _ := InTable(g, g[a].handoffs, b);
    }
  }

  /** Every handoff of an agent can be taken exactly if no two of them share a transfer tool, which
      two agents with different names can do. */
  lemma AllOffered(g: Graph, a: AgentId)
    requires Closed(g) && a in g
    ensures Transfers(g)[a] == Handoffs(g)[a] <==>
      forall b, c | b in g[a].handoffs && c in g[a].handoffs && TransferTool(g[b].name) == TransferTool(g[c].name) ::
        b == c
  {
    hide TransferTool;
    var hs := g[a].handoffs;
    TransfersAreHandoffs(g);
    if Transfers(g)[a] == Handoffs(g)[a] {
      forall b, c | b in hs && c in hs && TransferTool(g[b].name) == TransferTool(g[c].name) ensures b == c {
        assert b in Transfers(g)[a] && c in Transfers(g)[a];
        var s := InTable(g, hs, b);
        var t := InTable(g, hs, c);
      }
    }
    if forall b, c | b in hs && c in hs && TransferTool(g[b].name) == TransferTool(g[c].name) :: b == c {
      forall b | b in hs ensures b in Transfers(g)[a] {
        var tool := TransferTool(g[b].name);
        var i :| 0 <= i < |hs| && hs[i] == b;
        TableHoldsLast(g, hs, tool);
        assert TransferTable(g, hs)[tool] == b;
      }
      assert Transfers(g)[a] == Handoffs(g)[a];
    }
  }

  // ---- Reach ----

  predicate Leads(l: Links, a: AgentId, b: AgentId) {
    a in l && b in l[a]
  }

  ghost predicate IsPath(l: Links, p: seq<AgentId>) {
    p != [] && forall i, j {:trigger p[i], p[j]} | 0 <= i && i + 1 == j < |p| :: Leads(l, p[i], p[j])
  }

  ghost predicate CanReach(l: Links, entry: AgentId, a: AgentId) {
    exists p :: IsPath(l, p) && p[0] == entry && p[|p| - 1] == a
  }

  lemma ReachSelf(l: Links, entry: AgentId)
    ensures CanReach(l, entry, entry)
  {
    assert IsPath(l, [entry]) && [entry][0] == entry;
  }

  lemma ReachNext(l: Links, entry: AgentId, a: AgentId, b: AgentId)
    requires CanReach(l, entry, a) && Leads(l, a, b)
    ensures CanReach(l, entry, b)
  {
    hide Leads;
    var p :| IsPath(l, p) && p[0] == entry && p[|p| - 1] == a;
    var q := p + [b];
    assert IsPath(l, q) && q[0] == entry && q[|q| - 1] == b;
  }

  lemma MoreReach(l: Links, m: Links, entry: AgentId, a: AgentId)
    requires LinkedBy(l, m) && CanReach(l, entry, a)
    ensures CanReach(m, entry, a)
  {
    var p :| IsPath(l, p) && p[0] == entry && p[|p| - 1] == a;
    forall i, j {:trigger p[i], p[j]} | 0 <= i && i + 1 == j < |p| ensures Leads(m, p[i], p[j]) {
      assert Leads(l, p[i], p[j]);
    }
  }

  lemma ReachTrans(l: Links, a: AgentId, b: AgentId, c: AgentId)
    requires CanReach(l, a, b) && CanReach(l, b, c)
    ensures CanReach(l, a, c)
  {
    hide Leads;
    var p :| IsPath(l, p) && p[0] == a && p[|p| - 1] == b;
    var q :| IsPath(l, q) && q[0] == b && q[|q| - 1] == c;
    var r := p + q[1..];
    forall i, j {:trigger r[i], r[j]} | 0 <= i && i + 1 == j < |r| ensures Leads(l, r[i], r[j]) {
      if j < |p| {
        assert Leads(l, p[i], p[j]);
      } else {
        var m := i - (|p| - 1);
        assert r[i] == q[m] && r[j] == q[m + 1];
      }
    }
    assert IsPath(l, r) && r[0] == a && r[|r| - 1] == c;
  }

  lemma PathParts(l: Links, p: seq<AgentId>, k: nat)
    requires IsPath(l, p) && k < |p|
    ensures CanReach(l, p[0], p[k]) && CanReach(l, p[k], p[|p| - 1])
  {
    hide Leads;
    var q, r := p[..k + 1], p[k..];
    assert IsPath(l, q) && q[0] == p[0] && q[|q| - 1] == p[k];
    assert IsPath(l, r) && r[0] == p[k] && r[|r| - 1] == p[|p| - 1];
  }

  /** No two agents that the handoff graph reaches share a name. */
  ghost predicate DistinctNames(g: Graph, entry: AgentId) {
    forall a, b {:trigger g[a], g[b]} |
      CanReach(Handoffs(g), entry, a) && CanReach(Handoffs(g), entry, b) && a in g && b in g
        && g[a].name == g[b].name :: a == b
  }

  // ---- The registry ----

  type Registry = map<Name, AgentId>

  function Unnamed(g: Graph, registry: Registry): set<AgentId> {
    set a | a in g && g[a].name !in registry
  }

  lemma NamesOne(g: Graph, registry: Registry, a: AgentId)
    requires a in g && g[a].name !in registry
    ensures Unnamed(g, registry[g[a].name := a]) < Unnamed(g, registry)
  {
    assert a in Unnamed(g, registry) && a !in Unnamed(g, registry[g[a].name := a]);
  }

  predicate AllIn(g: Graph, stack: seq<AgentId>) {
    forall a | a in stack :: a in g
  }

  /** The loop of `build_registry` from a stack and a registry on. */
  function Traverse(g: Graph, stack: seq<AgentId>, registry: Registry): Registry
    requires Closed(g) && AllIn(g, stack)
    decreases Unnamed(g, registry), |stack|
  {
    if stack == [] then registry
    else
      var a, rest := stack[|stack| - 1], stack[..|stack| - 1];
      assert a in stack;
      if g[a].name in registry then Traverse(g, rest, registry)
      else
        NamesOne(g, registry, a);
        Traverse(g, rest + g[a].handoffs, registry[g[a].name := a])
  }

  /** The agents that this loop passes over because another agent has their name. */
  function Skipped(g: Graph, stack: seq<AgentId>, registry: Registry): set<AgentId>
    requires Closed(g) && AllIn(g, stack)
    decreases Unnamed(g, registry), |stack|
  {
    if stack == [] then {}
    else
      var a, rest := stack[|stack| - 1], stack[..|stack| - 1];
      assert a in stack;
      if g[a].name in registry then (if registry[g[a].name] == a then {} else {a}) + Skipped(g, rest, registry)
      else
        NamesOne(g, registry, a);
        Skipped(g, rest + g[a].handoffs, registry[g[a].name := a])
  }

  /** Registered agents are in reach and under their own names. */
  ghost predicate Sound(g: Graph, entry: AgentId, registry: Registry) {
    forall n {:trigger registry[n]} | n in registry ::
      registry[n] in g && g[registry[n]].name == n && CanReach(Handoffs(g), entry, registry[n])
  }

  ghost predicate Accounted(g: Graph, registry: Registry, stack: seq<AgentId>, skipped: set<AgentId>, b: AgentId) {
    b in stack || (b in g && g[b].name in registry && (registry[g[b].name] == b || b in skipped))
  }

  /** The entry and every handoff of a registered agent is on the stack, registered or skipped. */
  ghost predicate Pursued(g: Graph, entry: AgentId, registry: Registry, stack: seq<AgentId>, skipped: set<AgentId>) {
    && Accounted(g, registry, stack, skipped, entry)
    && forall n, b {:trigger Leads(Handoffs(g), registry[n], b)} |
         n in registry && Leads(Handoffs(g), registry[n], b) ::
         Accounted(g, registry, stack, skipped, b)
  }

  /** Skipped agents have another agent under their name. */
  ghost predicate Displaced(g: Graph, registry: Registry, skipped: set<AgentId>) {
    forall b | b in skipped :: b in g && g[b].name in registry && registry[g[b].name] != b
  }

  ghost predicate Inv(g: Graph, entry: AgentId, registry: Registry, stack: seq<AgentId>, skipped: set<AgentId>) {
    && Closed(g) && AllIn(g, stack)
    && Sound(g, entry, registry) && Pursued(g, entry, registry, stack, skipped) && Displaced(g, registry, skipped)
    && forall a | a in stack :: CanReach(Handoffs(g), entry, a)
  }

  lemma StartState(g: Graph, entry: AgentId)
    requires Closed(g) && entry in g
    ensures Inv(g, entry, map[], [entry], {})
  {
    ReachSelf(Handoffs(g), entry);
  }

  /** The agent on top of the stack has its name taken. */
  lemma Skip(g: Graph, entry: AgentId, registry: Registry, rest: seq<AgentId>, a: AgentId, skipped: set<AgentId>)
    requires Inv(g, entry, registry, rest + [a], skipped) && g[a].name in registry
    ensures Inv(g, entry, registry, rest, if registry[g[a].name] == a then skipped else skipped + {a})
  {
    hide Leads, CanReach, Handoffs;
    assert a in rest + [a] && forall b | b in rest :: b in rest + [a];
    var more := if registry[g[a].name] == a then skipped else skipped + {a};
    forall b | Accounted(g, registry, rest + [a], skipped, b) ensures Accounted(g, registry, rest, more, b) {
    }
  }

  /** It is registered, and its handoffs pushed. */
  lemma Register(g: Graph, entry: AgentId, registry: Registry, rest: seq<AgentId>, a: AgentId, skipped: set<AgentId>)
    requires Inv(g, entry, registry, rest + [a], skipped) && a in g && g[a].name !in registry
    ensures Inv(g, entry, registry[g[a].name := a], rest + g[a].handoffs, skipped)
  {
    hide CanReach;
    var more, stack := registry[g[a].name := a], rest + g[a].handoffs;
    assert a in rest + [a] && forall b | b in rest :: b in rest + [a];
    forall b | b in g[a].handoffs ensures b in g && CanReach(Handoffs(g), entry, b) {
      var i :| 0 <= i < |g[a].handoffs| && g[a].handoffs[i] == b;
      ReachNext(Handoffs(g), entry, a, b);
    }
    hide Handoffs;
    forall b | Accounted(g, registry, rest + [a], skipped, b) ensures Accounted(g, more, stack, skipped, b) {
    }
    assert Pursued(g, entry, more, stack, skipped) by { PushesHandoffs(g, entry, registry, rest, a, skipped); }
  }

  lemma PushesHandoffs(g: Graph, entry: AgentId, registry: Registry, rest: seq<AgentId>, a: AgentId,
                       skipped: set<AgentId>)
    requires Closed(g) && Pursued(g, entry, registry, rest + [a], skipped) && a in g && g[a].name !in registry
    ensures Pursued(g, entry, registry[g[a].name := a], rest + g[a].handoffs, skipped)
  {
    var more, stack := registry[g[a].name := a], rest + g[a].handoffs;
    forall n, b {:trigger Leads(Handoffs(g), more[n], b)} | n in more && Leads(Handoffs(g), more[n], b)
      ensures Accounted(g, more, stack, skipped, b)
    {
      if n in registry {
        assert Leads(Handoffs(g), registry[n], b) ==> Accounted(g, registry, rest + [a], skipped, b);
      }
    }
  }

  /** What the traversal comes to. */
  lemma {:induction false} TraverseInv(g: Graph, entry: AgentId, registry: Registry, stack: seq<AgentId>,
                                       skipped: set<AgentId>)
    requires Inv(g, entry, registry, stack, skipped)
    ensures Inv(g, entry, Traverse(g, stack, registry), [], skipped + Skipped(g, stack, registry))
    decreases Unnamed(g, registry), |stack|
  {
    if stack == [] {
      assert skipped + {} == skipped;
    } else {
      var a, rest := stack[|stack| - 1], stack[..|stack| - 1];
      assert stack == rest + [a] && a in stack;
      hide Sound, Pursued, Displaced, CanReach, Handoffs;
      if g[a].name in registry {
        Skip(g, entry, registry, rest, a, skipped);
        var more := if registry[g[a].name] == a then skipped else skipped + {a};
        TraverseInv(g, entry, registry, rest, more);
        assert more + Skipped(g, rest, registry) == skipped + Skipped(g, stack, registry);
      } else {
        NamesOne(g, registry, a);
        Register(g, entry, registry, rest, a, skipped);
        TraverseInv(g, entry, registry[g[a].name := a], rest + g[a].handoffs, skipped);
      }
    }
  }

  lemma Built(g: Graph, entry: AgentId)
    requires Closed(g) && entry in g
    ensures Inv(g, entry, Traverse(g, [entry], map[]), [], Skipped(g, [entry], map[]))
  {
    StartState(g, entry);
    hide Inv, Traverse, Skipped;
    TraverseInv(g, entry, map[], [entry], {});
    assert {} + Skipped(g, [entry], map[]) == Skipped(g, [entry], map[]);
  }

  /** The agents that `l` reaches are all registered. */
  ghost predicate Covers(l: Links, entry: AgentId, registry: Registry) {
    forall a | CanReach(l, entry, a) :: a in registry.Values
  }

  ghost predicate SkipsNone(l: Links, entry: AgentId, skipped: set<AgentId>) {
    forall a | CanReach(l, entry, a) :: a !in skipped
  }

  /** A path from the entry ends at a registered agent, or passes through a skipped one. */
  lemma {:induction false} FirstSkipped(g: Graph, l: Links, entry: AgentId, registry: Registry, skipped: set<AgentId>,
                                        p: seq<AgentId>) returns (k: nat)
    requires Inv(g, entry, registry, [], skipped) && LinkedBy(l, Handoffs(g)) && IsPath(l, p) && p[0] == entry
    ensures k < |p|
    ensures p[k] in skipped
      || (var a := p[|p| - 1]; a in g && g[a].name in registry && registry[g[a].name] == a)
    decreases |p|
  {
    var n := |p| - 1;
    k := n;
    if n > 0 {
      var q := p[..n];
      assert Leads(l, p[n - 1], p[n]);
      assert IsPath(l, q) by { hide Leads; }
      k := FirstSkipped(g, l, entry, registry, skipped, q);
      if p[k] !in skipped {
        k := n;
        assert Leads(Handoffs(g), registry[g[p[n - 1]].name], p[n]);
        hide IsPath, Leads, Handoffs, Sound, Displaced;
        assert Accounted(g, registry, [], skipped, p[n]);
      }
    } else {
      hide IsPath, Leads, Handoffs, Sound, Displaced;
      assert Accounted(g, registry, [], skipped, p[0]);
    }
  }

  /** Whatever links a run follows, all it reaches is registered exactly if none of it is skipped. */
  lemma CoversUnlessSkipped(g: Graph, l: Links, entry: AgentId, registry: Registry, skipped: set<AgentId>)
    requires Inv(g, entry, registry, [], skipped) && LinkedBy(l, Handoffs(g))
    ensures Covers(l, entry, registry) <==> SkipsNone(l, entry, skipped)
  {
    if SkipsNone(l, entry, skipped) {
      forall a | CanReach(l, entry, a) ensures a in registry.Values {
        var p :| IsPath(l, p) && p[0] == entry && p[|p| - 1] == a;
        hide Inv, CanReach;
        var k := FirstSkipped(g, l, entry, registry, skipped, p);
        PathParts(l, p, k);
        assert registry[g[a].name] in registry.Values;
      }
    }
    if Covers(l, entry, registry) {
      hide CanReach, Pursued;
      forall a | CanReach(l, entry, a) ensures a !in skipped {
        var n :| n in registry && registry[n] == a;
        assert g[registry[n]].name == n;
      }
    }
  }

  /** A skipped agent shares its name with another in reach. */
  lemma SharesName(g: Graph, entry: AgentId, registry: Registry, skipped: set<AgentId>, a: AgentId)
    requires Inv(g, entry, registry, [], skipped) && a in skipped
    ensures a in g && exists b :: b != a && b in g && g[b].name == g[a].name && CanReach(Handoffs(g), entry, b)
  {
    hide CanReach, Pursued, Handoffs;
    var b := registry[g[a].name];
    assert b != a && g[b].name == g[a].name;
  }

  /** All agents in the graph's reach are registered exactly if no two of them share a name. */
  lemma CoversDistinct(g: Graph, entry: AgentId, registry: Registry, skipped: set<AgentId>)
    requires Inv(g, entry, registry, [], skipped)
    ensures Covers(Handoffs(g), entry, registry) <==> DistinctNames(g, entry)
  {
    hide CanReach, Pursued;
    if DistinctNames(g, entry) {
      forall a | CanReach(Handoffs(g), entry, a) ensures a !in skipped {
        if a in skipped { SharesName(g, entry, registry, skipped, a); }
      }
      assert LinkedBy(Handoffs(g), Handoffs(g));
      CoversUnlessSkipped(g, Handoffs(g), entry, registry, skipped);
    }
    if Covers(Handoffs(g), entry, registry) {
      forall a, b | CanReach(Handoffs(g), entry, a) && CanReach(Handoffs(g), entry, b) && a in g && b in g
        && g[a].name == g[b].name
        ensures a == b
      {
        var m :| m in registry && registry[m] == a;
        var n :| n in registry && registry[n] == b;
      }
    }
  }

  /** `build_registry`: only agents in the handoff graph's reach, each under its own name; all of them
      exactly if no two share a name; and all that a run can become exactly if the traversal passes
      over none of those. */
  method BuildRegistry(g: Graph, entry: AgentId) returns (registry: Registry)
    requires Closed(g) && entry in g
    ensures registry == Traverse(g, [entry], map[]) && Sound(g, entry, registry)
    ensures Covers(Handoffs(g), entry, registry) <==> DistinctNames(g, entry)
    ensures Covers(Transfers(g), entry, registry) <==> SkipsNone(Transfers(g), entry, Skipped(g, [entry], map[]))
  {
    hide *;
    registry := map[];
    var stack := [entry];
    AllInOne(g, entry);
    while stack != []
      invariant AllIn(g, stack) && Traverse(g, stack, registry) == Traverse(g, [entry], map[])
      decreases Unnamed(g, registry), |stack|
    {
      var a := stack[|stack| - 1];
      TraverseStep(g, stack, registry);
      stack := stack[..|stack| - 1];
      if g[a].name !in registry {
        registry := registry[g[a].name := a];
        stack := stack + g[a].handoffs;
      }
    }
    TraverseEnd(g, registry);
    Built(g, entry);
    InvSound(g, entry, registry, Skipped(g, [entry], map[]));
    CoversDistinct(g, entry, registry, Skipped(g, [entry], map[]));
    TransfersAreHandoffs(g);
    CoversUnlessSkipped(g, Transfers(g), entry, registry, Skipped(g, [entry], map[]));
  }

  lemma AllInOne(g: Graph, entry: AgentId)
    requires entry in g
    ensures AllIn(g, [entry])
  {
  }

  lemma TraverseEnd(g: Graph, registry: Registry)
    requires Closed(g)
    ensures AllIn(g, []) && Traverse(g, [], registry) == registry
  {
  }

  lemma InvSound(g: Graph, entry: AgentId, registry: Registry, skipped: set<AgentId>)
    requires Inv(g, entry, registry, [], skipped)
    ensures Sound(g, entry, registry)
  {
  }

  lemma TraverseStep(g: Graph, stack: seq<AgentId>, registry: Registry)
    requires Closed(g) && AllIn(g, stack) && stack != []
    ensures var a, rest := stack[|stack| - 1], stack[..|stack| - 1];
      && a in g
      && if g[a].name in registry then
           AllIn(g, rest) && Traverse(g, stack, registry) == Traverse(g, rest, registry)
         else
           && AllIn(g, rest + g[a].handoffs) && Unnamed(g, registry[g[a].name := a]) < Unnamed(g, registry)
           && Traverse(g, stack, registry) == Traverse(g, rest + g[a].handoffs, registry[g[a].name := a])
  {
    var a := stack[|stack| - 1];
    assert a in stack;
    if g[a].name !in registry { NamesOne(g, registry, a); }
  }

  // ---- The runs of the multi-agent loop ----

  ghost predicate TransfersFrom(l: Links, a: AgentId, calls: seq<T.ToolCall>) {
    forall k {:trigger calls[k]} | 0 <= k < |calls| && calls[k].outcome.Transfer? ::
      Leads(l, a, calls[k].outcome.target)
  }

  /** In every reply each transfer is one that the agent then active could take. */
  ghost predicate Offered(l: Links, entry: AgentId, replies: seq<T.Reply>) {
    forall i {:trigger replies[i]} | 0 <= i < |replies| ::
      TransfersFrom(l, T.ActiveAfter(entry, replies[..i]), replies[i].calls)
  }

  lemma {:induction false} TargetReachable(l: Links, entry: AgentId, a: AgentId, calls: seq<T.ToolCall>)
    requires CanReach(l, entry, a) && TransfersFrom(l, a, calls)
    ensures CanReach(l, entry, T.LastTarget(calls, a))
    decreases |calls|
  {
    hide CanReach, Leads;
    if calls != [] {
      var last := calls[|calls| - 1];
      if last.outcome.Transfer? {
        ReachNext(l, entry, a, last.outcome.target);
      } else {
        TargetReachable(l, entry, a, calls[..|calls| - 1]);
      }
    }
  }

  /** The active agent is always one that the transfers reach. */
  lemma {:induction false} ActiveReachable(l: Links, entry: AgentId, replies: seq<T.Reply>)
    requires Offered(l, entry, replies)
    ensures CanReach(l, entry, T.ActiveAfter(entry, replies))
    decreases |replies|
  {
    hide CanReach, TransfersFrom;
    if replies == [] {
      ReachSelf(l, entry);
    } else {
      var n := |replies| - 1;
      var less := replies[..n];
      forall i | 0 <= i < n ensures TransfersFrom(l, T.ActiveAfter(entry, less[..i]), less[i].calls) {
        assert less[..i] == replies[..i] && less[i] == replies[i];
      }
      ActiveReachable(l, entry, less);
      TargetReachable(l, entry, T.ActiveAfter(entry, less), replies[n].calls);
    }
  }

  /** A run along path `p`, one transfer at a time. */
  lemma {:induction false} RunAlong(l: Links, p: seq<AgentId>) returns (replies: seq<T.Reply>)
    requires IsPath(l, p)
    ensures Offered(l, p[0], replies) && T.ActiveAfter(p[0], replies) == p[|p| - 1]
    decreases |p|
  {
    if |p| == 1 {
      replies := [];
    } else {
      var n := |p| - 1;
      var q, a := p[..n], p[n];
      assert Leads(l, p[n - 1], p[n]);
      assert IsPath(l, q) by { hide Leads; }
      var less := RunAlong(l, q);
      replies := less + [T.Reply("", [T.ToolCall(0, T.Transfer(a, ""))])];
      OneMore(l, p[0], less, a);
    }
  }

  lemma OneMore(l: Links, entry: AgentId, less: seq<T.Reply>, a: AgentId)
    requires Offered(l, entry, less) && Leads(l, T.ActiveAfter(entry, less), a)
    ensures var replies := less + [T.Reply("", [T.ToolCall(0, T.Transfer(a, ""))])];
      Offered(l, entry, replies) && T.ActiveAfter(entry, replies) == a
  {
    hide Leads;
    var n := |less|;
    var calls := [T.ToolCall(0, T.Transfer(a, ""))];
    var replies := less + [T.Reply("", calls)];
    assert replies[..n] == less;
    assert TransfersFrom(l, T.ActiveAfter(entry, less), calls);
    hide TransfersFrom;
    forall i | 0 <= i < |replies| ensures TransfersFrom(l, T.ActiveAfter(entry, replies[..i]), replies[i].calls) {
      if i < n {
        assert replies[..i] == less[..i] && replies[i] == less[i];
      }
    }
  }

  /** What the transfers reach is what a run can become. */
  lemma ReachIsRun(l: Links, entry: AgentId, a: AgentId)
    ensures CanReach(l, entry, a) <==>
      exists replies :: Offered(l, entry, replies) && T.ActiveAfter(entry, replies) == a
  {
    hide Offered, Leads;
    if CanReach(l, entry, a) {
      var p :| IsPath(l, p) && p[0] == entry && p[|p| - 1] == a;
      var replies := RunAlong(l, p);
      assert Offered(l, entry, replies);
    }
    hide CanReach;
    if replies :| Offered(l, entry, replies) && T.ActiveAfter(entry, replies) == a {
      ActiveReachable(l, entry, replies);
    }
  }

  lemma ReachCloses(g: Graph, entry: AgentId, a: AgentId)
    requires Closed(g) && entry in g && CanReach(Handoffs(g), entry, a)
    ensures a in g
  {
    var p :| IsPath(Handoffs(g), p) && p[0] == entry && p[|p| - 1] == a;
    if |p| > 1 {
      assert Leads(Handoffs(g), p[|p| - 2], p[|p| - 1]);
      var b := p[|p| - 2];
      var i :| 0 <= i < |g[b].handoffs| && g[b].handoffs[i] == a;
    }
  }

  // ---- The startup check ----

  predicate HasTool(g: Graph, registry: Registry, t: Tool) {
    exists n | n in registry :: registry[n] in g && t in g[registry[n]].tools
  }

  /** The check `run_multi_agent` makes when it has no gate: some registered agent has a gated tool. */
  predicate FindsGated(g: Graph, registry: Registry, gated: set<Tool>) {
    exists t | t in gated :: HasTool(g, registry, t)
  }

  /** Some agent that the links reach has a gated tool. */
  ghost predicate ReachesGated(g: Graph, l: Links, entry: AgentId, gated: set<Tool>) {
    exists a, t :: CanReach(l, entry, a) && a in g && t in g[a].tools && t in gated
  }

  /** The agent that answers after `replies` has no gated tool to call. */
  ghost predicate NothingGatedAfter(g: Graph, entry: AgentId, gated: set<Tool>, replies: seq<T.Reply>) {
    var a := T.ActiveAfter(entry, replies);
    a in g && forall t | t in g[a].tools :: t !in gated
  }

  ghost predicate NeverGated(g: Graph, entry: AgentId, gated: set<Tool>)
    requires Closed(g)
  {
    forall replies | Offered(Transfers(g), entry, replies) :: NothingGatedAfter(g, entry, gated, replies)
  }

  /** The traversal passes over an agent that a run can become, and from which transfers lead to an
      agent with a gated tool. */
  ghost predicate PassesOverGated(g: Graph, entry: AgentId, gated: set<Tool>)
    requires Closed(g) && entry in g
  {
    exists s :: s in Skipped(g, [entry], map[]) && CanReach(Transfers(g), entry, s)
                && ReachesGated(g, Transfers(g), s, gated)
  }

  /** The check refuses only graphs with a gated tool in reach, and with distinct names all of those.
      If it lets a run through, the run never comes to a gated tool, whatever the model replies,
      exactly unless the traversal passes over an agent on the way to one. */
  method CheckWithoutGate(g: Graph, entry: AgentId, gated: set<Tool>) returns (refused: bool)
    requires Closed(g) && entry in g
    ensures refused == FindsGated(g, Traverse(g, [entry], map[]), gated)
    ensures refused ==> ReachesGated(g, Handoffs(g), entry, gated)
    ensures DistinctNames(g, entry) ==> (refused <==> ReachesGated(g, Handoffs(g), entry, gated))
    ensures !refused ==> (NeverGated(g, entry, gated) <==> !PassesOverGated(g, entry, gated))
    ensures !refused && SkipsNone(Transfers(g), entry, Skipped(g, [entry], map[])) ==> NeverGated(g, entry, gated)
    ensures !refused && DistinctNames(g, entry) ==> NeverGated(g, entry, gated)
  {
    hide CanReach, DistinctNames, Traverse, Skipped, NeverGated, Transfers, Handoffs, PassesOverGated;
    var registry := BuildRegistry(g, entry);
    refused := FindsGated(g, registry, gated);
    if refused { GatedInReach(g, entry, registry, gated); }
    NeverGatedIsReach(g, entry, gated);
    if DistinctNames(g, entry) {
      if ReachesGated(g, Handoffs(g), entry, gated) { CoveredFound(g, Handoffs(g), entry, registry, gated); }
      TransfersAreHandoffs(g);
      if ReachesGated(g, Transfers(g), entry, gated) { FewerGated(g, Transfers(g), Handoffs(g), entry, gated); }
    }
    if !refused { MissesExactly(g, entry, registry, gated); }
    if PassesOverGated(g, entry, gated) { SkippingMatters(g, entry, gated); }
  }

  lemma SkippingMatters(g: Graph, entry: AgentId, gated: set<Tool>)
    requires Closed(g) && entry in g && PassesOverGated(g, entry, gated)
    ensures !SkipsNone(Transfers(g), entry, Skipped(g, [entry], map[]))
  {
    hide CanReach, Transfers, Skipped, ReachesGated;
  }

  lemma GatedInReach(g: Graph, entry: AgentId, registry: Registry, gated: set<Tool>)
    requires Sound(g, entry, registry) && FindsGated(g, registry, gated)
    ensures ReachesGated(g, Handoffs(g), entry, gated)
  {
    hide CanReach, Handoffs;
    var t :| t in gated && HasTool(g, registry, t);
    var n :| n in registry && registry[n] in g && t in g[registry[n]].tools;
    assert CanReach(Handoffs(g), entry, registry[n]);
  }

  lemma CoveredFound(g: Graph, l: Links, entry: AgentId, registry: Registry, gated: set<Tool>)
    requires Covers(l, entry, registry) && ReachesGated(g, l, entry, gated)
    ensures FindsGated(g, registry, gated)
  {
    hide CanReach;
    var a, t :| CanReach(l, entry, a) && a in g && t in g[a].tools && t in gated;
    assert a in registry.Values;
    var n :| n in registry && registry[n] == a;
    assert HasTool(g, registry, t);
  }

  lemma FewerGated(g: Graph, l: Links, m: Links, entry: AgentId, gated: set<Tool>)
    requires LinkedBy(l, m) && ReachesGated(g, l, entry, gated)
    ensures ReachesGated(g, m, entry, gated)
  {
    hide CanReach, LinkedBy;
    var a, t :| CanReach(l, entry, a) && a in g && t in g[a].tools && t in gated;
    MoreReach(l, m, entry, a);
  }

  /** The check's promise is about runs; it holds exactly if the transfers reach no gated tool. */
  lemma NeverGatedIsReach(g: Graph, entry: AgentId, gated: set<Tool>)
    requires Closed(g) && entry in g
    ensures NeverGated(g, entry, gated) <==> !ReachesGated(g, Transfers(g), entry, gated)
  {
    hide CanReach, Offered, Transfers, Handoffs;
    if ReachesGated(g, Transfers(g), entry, gated) {
      var a, t :| CanReach(Transfers(g), entry, a) && a in g && t in g[a].tools && t in gated;
      ReachIsRun(Transfers(g), entry, a);
      var replies :| Offered(Transfers(g), entry, replies) && T.ActiveAfter(entry, replies) == a;
      assert !NothingGatedAfter(g, entry, gated, replies);
    } else {
      forall replies | Offered(Transfers(g), entry, replies) ensures NothingGatedAfter(g, entry, gated, replies) {
        var a := T.ActiveAfter(entry, replies);
        ActiveReachable(Transfers(g), entry, replies);
        TransfersAreHandoffs(g);
        MoreReach(Transfers(g), Handoffs(g), entry, a);
        ReachCloses(g, entry, a);
      }
    }
  }

  lemma NotRegistered(g: Graph, registry: Registry, gated: set<Tool>, a: AgentId, t: Tool)
    requires !FindsGated(g, registry, gated) && a in g && t in g[a].tools && t in gated
    ensures !(g[a].name in registry && registry[g[a].name] == a)
  {
    assert !HasTool(g, registry, t);
  }

  /** When the check finds nothing, the transfers reach a gated tool exactly through an agent that the
      traversal passed over. */
  lemma MissesExactly(g: Graph, entry: AgentId, registry: Registry, gated: set<Tool>)
    requires Closed(g) && entry in g && registry == Traverse(g, [entry], map[]) && !FindsGated(g, registry, gated)
    ensures ReachesGated(g, Transfers(g), entry, gated) <==> PassesOverGated(g, entry, gated)
  {
    var l, skipped := Transfers(g), Skipped(g, [entry], map[]);
    hide Transfers, Traverse, Skipped, Inv, Handoffs, Leads;
    Built(g, entry);
    TransfersAreHandoffs(g);
    if ReachesGated(g, l, entry, gated) {
      var a, t :| CanReach(l, entry, a) && a in g && t in g[a].tools && t in gated;
      var p :| IsPath(l, p) && p[0] == entry && p[|p| - 1] == a;
      hide CanReach, LinkedBy, FindsGated;
      NotRegistered(g, registry, gated, a, t);
      var k := FirstSkipped(g, l, entry, registry, skipped, p);
      PathParts(l, p, k);
      assert ReachesGated(g, l, p[k], gated);
    }
    hide CanReach;
    if PassesOverGated(g, entry, gated) {
      var s :| s in skipped && CanReach(l, entry, s) && ReachesGated(g, l, s, gated);
      var a, t :| CanReach(l, s, a) && a in g && t in g[a].tools && t in gated;
      ReachTrans(l, entry, s, a);
    }
  }

  const CLERK := Name("clerk")
  const DESK := Name("desk")
  const ROOT := Name("root")

  /** Agent 2 has the name of agent 1 and the gated tool. */
  function SharedNames(): Graph {
    map[0 := Agent(ROOT, [], [3, 1]), 1 := Agent(CLERK, [], []), 2 := Agent(CLERK, [5], []), 3 := Agent(DESK, [], [2])]
  }

  lemma TakesLast(g: Graph, stack: seq<AgentId>, rest: seq<AgentId>, a: AgentId, registry: Registry)
    requires Closed(g) && AllIn(g, stack) && stack == rest + [a] && a in g && g[a].name !in registry
    ensures AllIn(g, rest + g[a].handoffs)
    ensures Traverse(g, stack, registry) == Traverse(g, rest + g[a].handoffs, registry[g[a].name := a])
  {
    assert stack[..|stack| - 1] == rest;
    TraverseStep(g, stack, registry);
  }

  lemma DropsLast(g: Graph, stack: seq<AgentId>, a: AgentId, registry: Registry)
    requires Closed(g) && AllIn(g, stack) && stack == [a] && a in g && g[a].name in registry
    ensures Traverse(g, stack, registry) == registry
  {
    assert stack[..|stack| - 1] == [];
    TraverseStep(g, stack, registry);
    TraverseEnd(g, registry);
  }

  lemma NamesDiffer()
    ensures ROOT != CLERK && ROOT != DESK && CLERK != DESK
  {
    assert |CLERK.text| == 5;
    assert ROOT.text[0] != DESK.text[0];
  }

  lemma SharedFacts(g: Graph)
    requires g == SharedNames()
    ensures Closed(g) && AllIn(g, [0]) && g.Keys == {0, 1, 2, 3}
    ensures g[0].name == ROOT && g[1].name == CLERK && g[2].name == CLERK && g[3].name == DESK
    ensures g[0].handoffs == [3, 1] && g[1].handoffs == [] && g[2].handoffs == [] && g[3].handoffs == [2]
  {
  }

  /** The traversal takes the last handoff first, so it meets agent 1 before agent 2. */
  lemma SharedTraversal(g: Graph)
    requires g == SharedNames()
    ensures Closed(g) && Traverse(g, [0], map[]) == map[ROOT := 0][CLERK := 1][DESK := 3]
  {
    hide *;
    SharedFacts(g);
    NamesDiffer();
    TakesLast(g, [0], [], 0, map[]);
    assert [] + g[0].handoffs == [3, 1];
    TakesLast(g, [3, 1], [3], 1, map[ROOT := 0]);
    assert [3] + g[1].handoffs == [3];
    TakesLast(g, [3], [], 3, map[ROOT := 0][CLERK := 1]);
    assert [] + g[3].handoffs == [2];
    DropsLast(g, [2], 2, map[ROOT := 0][CLERK := 1][DESK := 3]);
  }

  lemma SharedRun(g: Graph) returns (replies: seq<T.Reply>)
    requires g == SharedNames() && Closed(g)
    ensures Offered(Transfers(g), 0, replies) && T.ActiveAfter(0, replies) == 2
  {
    var first, second := T.ToolCall(0, T.Transfer(3, "desk")), T.ToolCall(1, T.Transfer(2, "clerk"));
    replies := [T.Reply("", [first]), T.Reply("", [second])];
    OnlyHandoff(g, 3, 2);
    ToolsDiffer(g);
    var l := Transfers(g);
    assert Leads(l, 0, 3) && Leads(l, 3, 2);
    hide Transfers, SharedNames, Leads, Closed, TransferTool;
    assert replies[..0] == [] && replies[..1] == [T.Reply("", [first])];
    assert T.ActiveAfter(0, replies[..1]) == 3;
    assert TransfersFrom(l, 0, [first]) && TransfersFrom(l, 3, [second]);
  }

  /** Shared names matter: the check passes although a run goes on to agent 3 and then to agent 2,
      which the traversal passed over and which has the gated tool. */
  lemma SharedNameHidesAgent(g: Graph) returns (replies: seq<T.Reply>)
    requires g == SharedNames()
    ensures Closed(g) && 0 in g && !FindsGated(g, Traverse(g, [0], map[]), {5})
    ensures Offered(Transfers(g), 0, replies) && T.ActiveAfter(0, replies) == 2 && 2 in g && 5 in g[2].tools
  {
    SharedTraversal(g);
    replies := SharedRun(g);
    hide Traverse, Offered, Transfers;
  }

  lemma OnlyHandoff(g: Graph, a: AgentId, b: AgentId)
    requires Closed(g) && a in g && b in g && g[a].handoffs == [b]
    ensures b in Transfers(g)[a]
  {
    AllOffered(g, a);
  }

  lemma ToolsDiffer(g: Graph)
    requires Closed(g) && 0 in g && 1 in g && 3 in g && g[0].handoffs == [3, 1] && g[1].name == CLERK
      && g[3].name == DESK
    ensures 3 in Transfers(g)[0]
  {
    assert |TransferTool(CLERK).text| == 17 && |TransferTool(DESK).text| == 16;
    AllOffered(g, 0);
  }
}
