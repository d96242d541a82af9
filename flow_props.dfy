/** What the overview graph promises: how many nodes it has and where each
    function and event node sits, an edge from the contract to every role,
    function and event node, caller edges only from functions that exist,
    and dependency edges that may dangle. */
module FlowProps {
  import opened Wrappers
  import opened Text
  import opened Seqs
  import opened ContractModel
  import opened Graph
  import opened FlowGraph

  /** The nodes, group by group: the contract node, the role nodes, the state
      node, then the function nodes, the event nodes and the findings node. */
  lemma FlowNodeGroups(c: AnalyzedContract)
    ensures var fs := c.functions;
      var front := [Node(ContractId, 0, None)] + RoleNodes(c.roles, 150) + StateNodes(c, 150);
      FlowNodes(c) == front + FunctionNodes(fs, 150) + EventNodes(c.events) + SecurityNodes(c, 150 + |fs| * 150)
  {
  }

  /** The number of nodes: the contract, one per role, the state node when
      there are state variables, one per function and per event, and the
      findings node when there are findings. */
  lemma FlowNodeCount(c: AnalyzedContract)
    ensures |FlowNodes(c)| ==
      1 + |c.roles| + (if |c.stateVariables| > 0 then 1 else 0) + |c.functions| + |c.events|
        + (if |c.securityIssues| > 0 then 1 else 0)
  {
    FlowNodeGroups(c);
  }

  /** The contract node comes first, then role `k` at position `1 + k`, named
      `role-<name>`, then the state node. */
  lemma RoleNodeAt(c: AnalyzedContract, k: nat)
    requires k < |c.roles|
    ensures FlowNodes(c)[0] == Node(ContractId, 0, None)
    ensures FlowNodes(c)[1 + k] == Node(RoleId(c.roles[k].name), 150 + k * 100, None)
    ensures |c.stateVariables| > 0 ==> FlowNodes(c)[1 + |c.roles|] == Node(StateId, 150, None)
  {
    FlowNodeGroups(c);
    var front := [Node(ContractId, 0, None)] + RoleNodes(c.roles, 150) + StateNodes(c, 150);
    var nodes := FlowNodes(c);
    assert nodes[..|front|] == front;
    assert front[1 + k] == RoleNodes(c.roles, 150)[k];
  }

  /** Function `i` is the node `function-<i>`, after the contract, role and
      state nodes; this is the node a click maps back to `functions[i]`. */
  lemma FunctionNodeAt(c: AnalyzedContract, i: nat)
    requires i < |c.functions|
    ensures var s := if |c.stateVariables| > 0 then 1 else 0;
      FlowNodes(c)[1 + |c.roles| + s + i] == Node(FunctionId(i), 150 + i * 150, None)
  {
    FlowNodeGroups(c);
    var front := [Node(ContractId, 0, None)] + RoleNodes(c.roles, 150) + StateNodes(c, 150);
    var fns := FunctionNodes(c.functions, 150);
    var nodes := FlowNodes(c);
    assert nodes[..|front| + |fns|] == front + fns;
    assert (front + fns)[|front| + i] == fns[i];
  }

  /** Event `k` is the node `event-<k>`, after the function nodes. */
  lemma EventNodeAt(c: AnalyzedContract, k: nat)
    requires k < |c.events|
    ensures var s := if |c.stateVariables| > 0 then 1 else 0;
      FlowNodes(c)[1 + |c.roles| + s + |c.functions| + k] == Node(EventId(k), 100 + k * 150, None)
  {
    FlowNodeGroups(c);
    var front := [Node(ContractId, 0, None)] + RoleNodes(c.roles, 150) + StateNodes(c, 150);
    var mid := front + FunctionNodes(c.functions, 150);
    var evs := EventNodes(c.events);
    var nodes := FlowNodes(c);
    assert nodes[..|mid| + |evs|] == mid + evs;
    assert (mid + evs)[|mid| + k] == evs[k];
  }

  /** The findings node comes last, no higher than 500 and below every
      function node. */
  lemma SecurityNodeLast(c: AnalyzedContract)
    requires |c.securityIssues| > 0
    ensures Last(FlowNodes(c)) == Node(SecurityId, Max(150 + |c.functions| * 150, 500), None)
  {
    FlowNodeGroups(c);
  }

  lemma {:induction false} FunctionEdgesHave(fs: seq<ContractFunction>, n: nat, i: nat)
    requires i < n <= |fs|
    ensures forall e :: e in EdgesOfFunction(fs, i) ==> e in FunctionEdges(fs, n)
    decreases n
  {
    var rest := FunctionEdges(fs, n - 1);
    var group := EdgesOfFunction(fs, n - 1);
    assert FunctionEdges(fs, n) == rest + group;
    if i < n - 1 {
      FunctionEdgesHave(fs, n - 1, i);
      forall e | e in EdgesOfFunction(fs, i) ensures e in rest + group {
        assert e in rest;
      }
    } else {
      forall e | e in group ensures e in rest + group {
      }
    }
  }

  lemma {:induction false} EventEdgesHave(fs: seq<ContractFunction>, es: seq<ContractEvent>, n: nat, k: nat)
    requires k < n <= |es|
    ensures forall e :: e in EdgesOfEvent(fs, es[k], k) ==> e in EventEdges(fs, es, n)
    decreases n
  {
    var rest := EventEdges(fs, es, n - 1);
    var group := EdgesOfEvent(fs, es[n - 1], n - 1);
    assert EventEdges(fs, es, n) == rest + group;
    if k < n - 1 {
      EventEdgesHave(fs, es, n - 1, k);
      forall e | e in EdgesOfEvent(fs, es[k], k) ensures e in rest + group {
        assert e in rest;
      }
    } else {
      forall e | e in group ensures e in rest + group {
      }
    }
  }

  lemma {:induction false} IssueEdgesHave(fs: seq<ContractFunction>, issues: seq<SecurityIssue>, n: nat, m: nat, target: string)
    requires m < n <= |issues|
    ensures forall e :: e in EdgesOfIssue(fs, issues[m], target) ==> e in IssueEdges(fs, issues, n, target)
    decreases n
  {
    if m < n - 1 {
      IssueEdgesHave(fs, issues, n - 1, m, target);
    }
  }

  /** Every edge group of the builder is part of the graph. */
  lemma FlowEdgeGroups(c: AnalyzedContract)
    ensures var edges := FlowEdges(c);
      && (forall e :: e in RoleEdges(c.roles) ==> e in edges)
      && (forall e :: e in StateEdges(c) ==> e in edges)
      && (forall i, e :: 0 <= i < |c.functions| && e in EdgesOfFunction(c.functions, i) ==> e in edges)
      && (forall k, e :: 0 <= k < |c.events| && e in EdgesOfEvent(c.functions, c.events[k], k) ==> e in edges)
      && (forall m, e :: 0 <= m < |c.securityIssues| && e in CallerEdges(c.functions, c.securityIssues[m].affectedFunctions, SecurityId) ==> e in edges)
      && (|c.securityIssues| > 0 ==> Link(ContractId, SecurityId) in edges)
  {
    var fs := c.functions;
    forall i | 0 <= i < |fs| ensures forall e :: e in EdgesOfFunction(fs, i) ==> e in FunctionEdges(fs, |fs|) {
      FunctionEdgesHave(fs, |fs|, i);
    }
    forall k | 0 <= k < |c.events| ensures forall e :: e in EdgesOfEvent(fs, c.events[k], k) ==> e in EventEdges(fs, c.events, |c.events|) {
      EventEdgesHave(fs, c.events, |c.events|, k);
    }
    forall m | 0 <= m < |c.securityIssues|
      ensures forall e :: e in CallerEdges(fs, c.securityIssues[m].affectedFunctions, SecurityId) ==> e in SecurityEdges(c)
    {
      IssueEdgesHave(fs, c.securityIssues, |c.securityIssues|, m, SecurityId);
    }
  }

  /** The contract node has an edge to every role, function and event node,
      and to the state and findings nodes when they exist. */
  lemma ContractEdges(c: AnalyzedContract)
    ensures var edges := FlowEdges(c);
      && (forall k :: 0 <= k < |c.roles| ==> Link(ContractId, RoleId(c.roles[k].name)) in edges)
      && (forall i :: 0 <= i < |c.functions| ==> Link(ContractId, FunctionId(i)) in edges)
      && (forall k :: 0 <= k < |c.events| ==> Link(ContractId, EventId(k)) in edges)
      && (|c.stateVariables| > 0 ==> Edge("e-contract-state", ContractId, StateId, false, None) in edges)
      && (|c.securityIssues| > 0 ==> Link(ContractId, SecurityId) in edges)
  {
    FlowEdgeGroups(c);
    forall k | 0 <= k < |c.roles| ensures Link(ContractId, RoleId(c.roles[k].name)) in RoleEdges(c.roles) {
      assert RoleEdges(c.roles)[k] == Link(ContractId, RoleId(c.roles[k].name));
    }
    forall i | 0 <= i < |c.functions| ensures Link(ContractId, FunctionId(i)) in EdgesOfFunction(c.functions, i) {
      assert Last(EdgesOfFunction(c.functions, i)) == Link(ContractId, FunctionId(i));
    }
    forall k | 0 <= k < |c.events| ensures Link(ContractId, EventId(k)) in EdgesOfEvent(c.functions, c.events[k], k) {
      assert Last(EdgesOfEvent(c.functions, c.events[k], k)) == Link(ContractId, EventId(k));
    }
  }

  /** Caller edges come only from functions that exist and are listed, one
      for each listed name some function has, from the first function of
      that name. */
  lemma {:induction false} CallerEdgesFacts(fs: seq<ContractFunction>, names: seq<string>, target: string)
    ensures forall e :: e in CallerEdges(fs, names, target) ==>
      exists j :: 0 <= j < |fs| && e == Link(FunctionId(j), target) && fs[j].name in names
    ensures forall x :: x in names && IndexOfName(fs, x) != -1 ==>
      Link(FunctionId(IndexOfName(fs, x)), target) in CallerEdges(fs, names, target)
    decreases |names|
  {
    if names != [] {
      var init := names[..|names| - 1];
      var x := Last(names);
      CallerEdgesFacts(fs, init, target);
      IndexOfNameFacts(fs, x);
      assert names == init + [x];
    } else {
      assert CallerEdges(fs, names, target) == [];
    }
  }

  /** The edges into an event node are the contract's edge and one edge from
      each listed emitter that names a function, from the first function of
      that name; nothing else. */
  lemma EmitterEdges(c: AnalyzedContract, k: nat)
    requires k < |c.events|
    ensures var fs := c.functions;
      var group := EdgesOfEvent(fs, c.events[k], k);
      && (forall e :: e in group ==> e in FlowEdges(c))
      && (forall e :: e in group ==>
            (e == Link(ContractId, EventId(k)) ||
             exists j :: 0 <= j < |fs| && e == Link(FunctionId(j), EventId(k)) && fs[j].name in c.events[k].relatedFunctions))
      && (forall x :: x in c.events[k].relatedFunctions && (exists j :: 0 <= j < |fs| && fs[j].name == x) ==>
            var j := IndexOfName(fs, x);
            0 <= j < |fs| && fs[j].name == x && Link(FunctionId(j), EventId(k)) in FlowEdges(c))
  {
    var fs := c.functions;
    FlowEdgeGroups(c);
    CallerEdgesFacts(fs, c.events[k].relatedFunctions, EventId(k));
    forall x | x in c.events[k].relatedFunctions && (exists j :: 0 <= j < |fs| && fs[j].name == x)
      ensures var j := IndexOfName(fs, x);
        0 <= j < |fs| && fs[j].name == x && Link(FunctionId(j), EventId(k)) in FlowEdges(c)
    {
      IndexOfNameFacts(fs, x);
    }
  }

  /** The edges into the findings node come from the affected functions that
      exist, one per listed name per finding; the same function may be the
      source of several such edges, all with the same id. */
  lemma SecurityCallerEdges(c: AnalyzedContract, m: nat)
    requires m < |c.securityIssues|
    ensures var fs := c.functions;
      var affected := c.securityIssues[m].affectedFunctions;
      && (forall e :: e in CallerEdges(fs, affected, SecurityId) ==>
            e in FlowEdges(c) &&
            exists j :: 0 <= j < |fs| && e == Link(FunctionId(j), SecurityId) && fs[j].name in affected)
      && (forall x :: x in affected && (exists j :: 0 <= j < |fs| && fs[j].name == x) ==>
            Link(FunctionId(IndexOfName(fs, x)), SecurityId) in FlowEdges(c))
  {
    var fs := c.functions;
    FlowEdgeGroups(c);
    CallerEdgesFacts(fs, c.securityIssues[m].affectedFunctions, SecurityId);
    forall x | x in c.securityIssues[m].affectedFunctions && (exists j :: 0 <= j < |fs| && fs[j].name == x)
      ensures IndexOfName(fs, x) != -1
    {
      IndexOfNameFacts(fs, x);
    }
  }

  /** A dependency edge targets the first function of the called name, and
      `function--1`, a node that does not exist, when no function has it. */
  lemma DependencyTargets(c: AnalyzedContract, i: nat, j: nat)
    requires i < |c.functions| && j < |c.functions[i].dependencies|
    ensures var fs := c.functions;
      var dep := fs[i].dependencies[j];
      && ((forall f :: f in fs ==> f.name != dep) ==> Link(FunctionId(i), "function--1") in FlowEdges(c))
      && ((exists f :: f in fs && f.name == dep) ==>
            var t := IndexOfName(fs, dep);
            0 <= t < |fs| && fs[t].name == dep && Link(FunctionId(i), FunctionId(t)) in FlowEdges(c))
  {
    var fs := c.functions;
    var dep := fs[i].dependencies[j];
    FlowEdgeGroups(c);
    IndexOfNameFacts(fs, dep);
    assert DependencyEdges(fs, i)[j] == Link(FunctionId(i), FunctionId(IndexOfName(fs, dep)));
    assert DependencyEdges(fs, i)[j] in EdgesOfFunction(fs, i);
    if forall f :: f in fs ==> f.name != dep {
      assert forall t :: 0 <= t < |fs| ==> fs[t] in fs;
      assert FunctionId(-1) == "function--1";
    } else {
      var f :| f in fs && f.name == dep;
    }
  }
}
