/** `generateFlowElements` (app/lib/contractAnalyzer.ts): the overview
    graph of an analysed contract. The contract node comes first, then one
    node per role, a single node for the state variables, one node per
    function and per event, and a single node for the findings. */
module FlowGraph {
  import opened Wrappers
  import opened Text
  import opened Seqs
  import opened ContractModel
  import opened Graph

  const ContractId := "contract"
  const StateId := "state"
  const SecurityId := "security"
  const EdgePrefix := "e-"
  const Dash := "-"
  const RolePrefix := "role-"
  const FunctionPrefix := "function-"
  const EventPrefix := "event-"

  function RoleId(name: string): string { RolePrefix + name }

  /** `function-${i}`; `findIndex` gives -1 for a missing name, hence
      `function--1`. */
  function FunctionId(i: int): string { FunctionPrefix + IntToString(i) }

  function EventId(k: nat): string { EventPrefix + NatToString(k) }

  /** The edge `e-<source>-<target>`, drawn with animation. */
  function Link(source: string, target: string): Edge {
    Edge(EdgePrefix + source + Dash + target, source, target, true, None)
  }

  // ---------------------------------------------------------------------
  // The graph, group by group

  /** Role `k` sits `100 * k` below the first row. */
  function RoleNodes(roles: seq<RoleDefinition>, y0: int): seq<Node> {
    seq(|roles|, k requires 0 <= k < |roles| => Node(RoleId(roles[k].name), y0 + k * 100, None))
  }

  function RoleEdges(roles: seq<RoleDefinition>): seq<Edge> {
    seq(|roles|, k requires 0 <= k < |roles| => Link(ContractId, RoleId(roles[k].name)))
  }

  function StateNodes(c: AnalyzedContract, y0: int): seq<Node> {
    if |c.stateVariables| > 0 then [Node(StateId, y0, None)] else []
  }

  /** The only edge drawn without animation. */
  function StateEdges(c: AnalyzedContract): seq<Edge> {
    if |c.stateVariables| > 0 then [Edge("e-contract-state", ContractId, StateId, false, None)] else []
  }

  /** Function `i` sits `150 * i` below the first row. */
  function FunctionNodes(fs: seq<ContractFunction>, y0: int): seq<Node> {
    seq(|fs|, i requires 0 <= i < |fs| => Node(FunctionId(i), y0 + i * 150, None))
  }

  /** One edge per dependency of function `i`, to the first function of
      that name, whether or not there is one. */
  function DependencyEdges(fs: seq<ContractFunction>, i: nat): seq<Edge>
    requires i < |fs|
  {
    var deps := fs[i].dependencies;
    seq(|deps|, j requires 0 <= j < |deps| => Link(FunctionId(i), FunctionId(IndexOfName(fs, deps[j]))))
  }

  function EdgesOfFunction(fs: seq<ContractFunction>, i: nat): seq<Edge>
    requires i < |fs|
  {
    DependencyEdges(fs, i) + [Link(ContractId, FunctionId(i))]
  }

  /** The edges of the first `n` functions. */
  function FunctionEdges(fs: seq<ContractFunction>, n: nat): seq<Edge>
    requires n <= |fs|
    decreases n
  {
    if n == 0 then [] else FunctionEdges(fs, n - 1) + EdgesOfFunction(fs, n - 1)
  }

  /** Event `k` sits at `100 + 150 * k`. */
  function EventNodes(es: seq<ContractEvent>): seq<Node> {
    seq(|es|, k requires 0 <= k < |es| => Node(EventId(k), 100 + k * 150, None))
  }

  /** One edge from the first function of each listed name to `target`,
      skipping names that no function has. */
  function CallerEdges(fs: seq<ContractFunction>, names: seq<string>, target: string): seq<Edge>
    decreases |names|
  {
    if names == [] then []
    else
      var idx := IndexOfName(fs, Last(names));
      CallerEdges(fs, names[..|names| - 1], target) + (if idx != -1 then [Link(FunctionId(idx), target)] else [])
  }

  function EdgesOfEvent(fs: seq<ContractFunction>, e: ContractEvent, k: nat): seq<Edge> {
    CallerEdges(fs, e.relatedFunctions, EventId(k)) + [Link(ContractId, EventId(k))]
  }

  /** The edges of the first `n` events. */
  function EventEdges(fs: seq<ContractFunction>, es: seq<ContractEvent>, n: nat): seq<Edge>
    requires n <= |es|
    decreases n
  {
    if n == 0 then [] else EventEdges(fs, es, n - 1) + EdgesOfEvent(fs, es[n - 1], n - 1)
  }

  function Max(a: int, b: int): int { if a < b then b else a }

  function SecurityNodes(c: AnalyzedContract, y: int): seq<Node> {
    if |c.securityIssues| > 0 then [Node(SecurityId, Max(y, 500), None)] else []
  }

  /** The edges from the affected functions of one finding to `target`, the
      findings node. */
  function EdgesOfIssue(fs: seq<ContractFunction>, issue: SecurityIssue, target: string): seq<Edge> {
    CallerEdges(fs, issue.affectedFunctions, target)
  }

  /** The edges of the first `n` findings. */
  function IssueEdges(fs: seq<ContractFunction>, issues: seq<SecurityIssue>, n: nat, target: string): seq<Edge>
    requires n <= |issues|
    decreases n
  {
    if n == 0 then []
    else IssueEdges(fs, issues, n - 1, target) + EdgesOfIssue(fs, issues[n - 1], target)
  }

  function SecurityEdges(c: AnalyzedContract): seq<Edge> {
    if |c.securityIssues| > 0 then
      IssueEdges(c.functions, c.securityIssues, |c.securityIssues|, SecurityId) + [Link(ContractId, SecurityId)]
    else []
  }

  /** The nodes: the first row is at 150, below the contract. */
  function FlowNodes(c: AnalyzedContract): seq<Node> {
    var fs := c.functions;
    [Node(ContractId, 0, None)] + RoleNodes(c.roles, 150) + StateNodes(c, 150)
      + FunctionNodes(fs, 150) + EventNodes(c.events) + SecurityNodes(c, 150 + |fs| * 150)
  }

  function FlowEdges(c: AnalyzedContract): seq<Edge> {
    var fs := c.functions;
    RoleEdges(c.roles) + StateEdges(c) + FunctionEdges(fs, |fs|)
      + EventEdges(fs, c.events, |c.events|) + SecurityEdges(c)
  }

  /** The whole graph. */
  function FlowElements(c: AnalyzedContract): Graph {
    Graph(FlowNodes(c), FlowEdges(c))
  }

  // ---------------------------------------------------------------------
  // The builder, one `forEach` at a time; each step returns the nodes and
  // edges it pushes

  method BuildRoles(roles: seq<RoleDefinition>, y0: int) returns (nodes: seq<Node>, edges: seq<Edge>)
    ensures nodes == RoleNodes(roles, y0) && edges == RoleEdges(roles)
  {
    nodes, edges := [], [];
    var k := 0;
    while k < |roles|
      invariant 0 <= k <= |roles|
      invariant nodes == RoleNodes(roles, y0)[..k]
      invariant edges == RoleEdges(roles)[..k]
    {
      var id := RoleId(roles[k].name);
      nodes := nodes + [Node(id, y0 + k * 100, None)];
      edges := edges + [Link(ContractId, id)];
      assert RoleNodes(roles, y0)[..k + 1] == RoleNodes(roles, y0)[..k] + [RoleNodes(roles, y0)[k]];
      assert RoleEdges(roles)[..k + 1] == RoleEdges(roles)[..k] + [RoleEdges(roles)[k]];
      k := k + 1;
    }
    assert RoleNodes(roles, y0)[..k] == RoleNodes(roles, y0);
    assert RoleEdges(roles)[..k] == RoleEdges(roles);
  }

  method BuildState(c: AnalyzedContract, y: int) returns (nodes: seq<Node>, edges: seq<Edge>)
    ensures nodes == StateNodes(c, y) && edges == StateEdges(c)
  {
    nodes, edges := [], [];
    if |c.stateVariables| > 0 {
      nodes := [Node(StateId, y, None)];
      edges := [Edge("e-contract-state", ContractId, StateId, false, None)];
    }
  }

  method BuildDependencyEdges(fs: seq<ContractFunction>, i: nat) returns (edges: seq<Edge>)
    requires i < |fs|
    ensures edges == DependencyEdges(fs, i)
  {
    edges := [];
    var deps := fs[i].dependencies;
    var j := 0;
    while j < |deps|
      invariant 0 <= j <= |deps|
      invariant edges == DependencyEdges(fs, i)[..j]
    {
      edges := edges + [Link(FunctionId(i), FunctionId(IndexOfName(fs, deps[j])))];
      assert DependencyEdges(fs, i)[..j + 1] == DependencyEdges(fs, i)[..j] + [DependencyEdges(fs, i)[j]];
      j := j + 1;
    }
    assert DependencyEdges(fs, i)[..j] == DependencyEdges(fs, i);
  }

  /** The function nodes with their edges; `yOffset` grows by 150 per
      function. */
  method BuildFunctions(fs: seq<ContractFunction>, y0: int) returns (nodes: seq<Node>, edges: seq<Edge>, y: int)
    ensures nodes == FunctionNodes(fs, y0)
    ensures edges == FunctionEdges(fs, |fs|)
    ensures y == y0 + |fs| * 150
  {
    nodes, edges, y := [], [], y0;
    var i := 0;
    while i < |fs|
      invariant 0 <= i <= |fs|
      invariant nodes == FunctionNodes(fs, y0)[..i]
      invariant edges == FunctionEdges(fs, i)
      invariant y == y0 + i * 150
    {
      nodes := nodes + [Node(FunctionId(i), y, None)];
      var deps := BuildDependencyEdges(fs, i);
      edges := edges + (deps + [Link(ContractId, FunctionId(i))]);
      assert edges == FunctionEdges(fs, i + 1);
      y := y + 150;
      assert FunctionNodes(fs, y0)[..i + 1] == FunctionNodes(fs, y0)[..i] + [FunctionNodes(fs, y0)[i]];
      i := i + 1;
    }
    assert FunctionNodes(fs, y0)[..i] == FunctionNodes(fs, y0);
  }

  /** `names.forEach` with the `funcIndex !== -1` test. */
  method BuildCallerEdges(fs: seq<ContractFunction>, names: seq<string>, target: string) returns (edges: seq<Edge>)
    ensures edges == CallerEdges(fs, names, target)
  {
    edges := [];
    var j := 0;
    while j < |names|
      invariant 0 <= j <= |names|
      invariant edges == CallerEdges(fs, names[..j], target)
    {
      var idx := IndexOfName(fs, names[j]);
      if idx != -1 {
        edges := edges + [Link(FunctionId(idx), target)];
      }
      assert names[..j + 1][..j] == names[..j];
      j := j + 1;
    }
    assert names[..j] == names;
  }

  method BuildEvents(fs: seq<ContractFunction>, es: seq<ContractEvent>) returns (nodes: seq<Node>, edges: seq<Edge>)
    ensures nodes == EventNodes(es)
    ensures edges == EventEdges(fs, es, |es|)
  {
    nodes, edges := [], [];
    var k := 0;
    while k < |es|
      invariant 0 <= k <= |es|
      invariant nodes == EventNodes(es)[..k]
      invariant edges == EventEdges(fs, es, k)
    {
      nodes := nodes + [Node(EventId(k), 100 + k * 150, None)];
      var emitters := BuildCallerEdges(fs, es[k].relatedFunctions, EventId(k));
      edges := edges + (emitters + [Link(ContractId, EventId(k))]);
      assert edges == EventEdges(fs, es, k + 1);
      assert EventNodes(es)[..k + 1] == EventNodes(es)[..k] + [EventNodes(es)[k]];
      k := k + 1;
    }
    assert EventNodes(es)[..k] == EventNodes(es);
  }

  /** The `forEach` over the findings, linking each one's affected
      functions to `target`. */
  method BuildIssueEdges(fs: seq<ContractFunction>, issues: seq<SecurityIssue>, target: string) returns (edges: seq<Edge>)
    ensures edges == IssueEdges(fs, issues, |issues|, target)
  {
    edges := [];
    var n := 0;
    while n < |issues|
      invariant 0 <= n <= |issues|
      invariant edges == IssueEdges(fs, issues, n, target)
    {
      var affected := BuildCallerEdges(fs, issues[n].affectedFunctions, target);
      assert affected == EdgesOfIssue(fs, issues[n], target);
      edges := edges + affected;
      n := n + 1;
    }
  }

  method BuildSecurity(c: AnalyzedContract, y: int) returns (nodes: seq<Node>, edges: seq<Edge>)
    ensures nodes == SecurityNodes(c, y) && edges == SecurityEdges(c)
  {
    nodes, edges := [], [];
    if |c.securityIssues| > 0 {
      nodes := [Node(SecurityId, Max(y, 500), None)];
      edges := BuildIssueEdges(c.functions, c.securityIssues, SecurityId);
      edges := edges + [Link(ContractId, SecurityId)];
    }
  }

  /** `generateFlowElements`. */
  method GenerateFlowElements(c: AnalyzedContract) returns (g: Graph)
    ensures g == FlowElements(c)
  {
    var fs := c.functions;
    var nodes := [Node(ContractId, 0, None)];
    var edges: seq<Edge> := [];
    var yOffset := 0;
    yOffset := yOffset + 150;
    var roleNodes, roleEdges := BuildRoles(c.roles, yOffset);
    nodes, edges := nodes + roleNodes, edges + roleEdges;
    var stateNodes, stateEdges := BuildState(c, yOffset);
    nodes, edges := nodes + stateNodes, edges + stateEdges;
    ghost var n1, e1 := nodes, edges;
    assert n1 == [Node(ContractId, 0, None)] + RoleNodes(c.roles, 150) + StateNodes(c, 150);
    assert e1 == RoleEdges(c.roles) + StateEdges(c);
    var functionNodes, functionEdges;
    functionNodes, functionEdges, yOffset := BuildFunctions(fs, yOffset);
    nodes, edges := nodes + functionNodes, edges + functionEdges;
    var eventNodes, eventEdges := BuildEvents(fs, c.events);
    nodes, edges := nodes + eventNodes, edges + eventEdges;
    var securityNodes, securityEdges := BuildSecurity(c, yOffset);
    nodes, edges := nodes + securityNodes, edges + securityEdges;
    assert nodes == n1 + FunctionNodes(fs, 150) + EventNodes(c.events) + SecurityNodes(c, 150 + |fs| * 150);
    assert edges == e1 + FunctionEdges(fs, |fs|) + EventEdges(fs, c.events, |c.events|) + SecurityEdges(c);
    g := Graph(nodes, edges);
  }
}
