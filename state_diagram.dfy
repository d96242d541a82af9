/** `generateStateDiagram` (app/lib/contractAnalyzer.ts): one node per state
    variable, one node per function that some state variable lists among its
    writers (`modifiedBy`), and a `modifies` edge from each such function to
    each variable that lists it. The writer nodes are numbered by their
    position among the writers. */
module StateDiagram {
  import opened Wrappers
  import opened Text
  import opened Seqs
  import opened ContractModel
  import opened Graph
  import opened FlowGraph
  import opened SourceMode
  import opened SourceProps

  const VariablePrefix := "state-"
  const Modifies := "modifies"

  /** `state-<k>`. */
  function VariableId(k: nat): string { VariablePrefix + NatToString(k) }

  /** Some state variable lists `name` among its writers. */
  predicate ModifiesState(vs: seq<ContractState>, name: string) {
    exists k :: 0 <= k < |vs| && name in vs[k].modifiedBy
  }

  /** The functions that modify state, in their order. */
  function Writers(vs: seq<ContractState>, fs: seq<ContractFunction>): seq<ContractFunction>
    decreases |fs|
  {
    if fs == [] then []
    else Writers(vs, fs[..|fs| - 1]) + (if ModifiesState(vs, Last(fs).name) then [Last(fs)] else [])
  }

  /** Variable `k` sits `150 * k` from the top. */
  function VariableNodes(vs: seq<ContractState>): seq<Node> {
    seq(|vs|, k requires 0 <= k < |vs| => Node(VariableId(k), k * 150, None))
  }

  /** Writer `j` sits `150 * j` from the top. */
  function WriterNodes(ws: seq<ContractFunction>): seq<Node> {
    seq(|ws|, j requires 0 <= j < |ws| => Node(FunctionId(j), j * 150, None))
  }

  /** `e-function-<j>-state-<k>`, animated and labelled `modifies`. */
  function ModifiesEdge(j: nat, k: nat): Edge {
    Edge(EdgePrefix + FunctionId(j) + Dash + VariableId(k), FunctionId(j), VariableId(k), true, Some(Modifies))
  }

  /** The edges of writer `j`, named `name`, to the first `n` variables. */
  function ModifiesEdges(vs: seq<ContractState>, name: string, j: nat, n: nat): seq<Edge>
    requires n <= |vs|
  {
    if n == 0 then []
    else ModifiesEdges(vs, name, j, n - 1) + (if name in vs[n - 1].modifiedBy then [ModifiesEdge(j, n - 1)] else [])
  }

  /** The edges of the first `n` writers. */
  function WriterEdges(vs: seq<ContractState>, ws: seq<ContractFunction>, n: nat): seq<Edge>
    requires n <= |ws|
  {
    if n == 0 then []
    else WriterEdges(vs, ws, n - 1) + ModifiesEdges(vs, ws[n - 1].name, n - 1, |vs|)
  }

  function StateGraph(c: AnalyzedContract): Graph {
    var ws := Writers(c.stateVariables, c.functions);
    Graph(VariableNodes(c.stateVariables) + WriterNodes(ws), WriterEdges(c.stateVariables, ws, |ws|))
  }

  method BuildVariableNodes(vs: seq<ContractState>) returns (nodes: seq<Node>)
    ensures nodes == VariableNodes(vs)
  {
    nodes := [];
    var k := 0;
    while k < |vs|
      invariant 0 <= k <= |vs|
      invariant nodes == VariableNodes(vs)[..k]
    {
      nodes := nodes + [Node(VariableId(k), k * 150, None)];
      assert VariableNodes(vs)[..k + 1] == VariableNodes(vs)[..k] + [VariableNodes(vs)[k]];
      k := k + 1;
    }
    assert VariableNodes(vs)[..k] == VariableNodes(vs);
  }

  /** The edges the inner `forEach` pushes for writer `j`. */
  method BuildModifiesEdges(vs: seq<ContractState>, name: string, j: nat) returns (edges: seq<Edge>)
    ensures edges == ModifiesEdges(vs, name, j, |vs|)
  {
    edges := [];
    var nodeId := FunctionId(j);
    var k := 0;
    while k < |vs|
      invariant 0 <= k <= |vs|
      invariant edges == ModifiesEdges(vs, name, j, k)
    {
      if name in vs[k].modifiedBy {
        var target := VariableId(k);
        edges := edges + [Edge(EdgePrefix + nodeId + Dash + target, nodeId, target, true, Some(Modifies))];
      }
      k := k + 1;
    }
  }

  /** `generateStateDiagram`. */
  method GenerateStateDiagram(c: AnalyzedContract) returns (g: Graph)
    ensures g == StateGraph(c)
  {
    var vs := c.stateVariables;
    var nodes := BuildVariableNodes(vs);
    ghost var front := nodes;
    var edges := [];
    var ws := Writers(vs, c.functions);
    var j := 0;
    while j < |ws|
      invariant 0 <= j <= |ws|
      invariant nodes == front + WriterNodes(ws)[..j]
      invariant edges == WriterEdges(vs, ws, j)
    {
      nodes := nodes + [Node(FunctionId(j), j * 150, None)];
      assert WriterNodes(ws)[..j + 1] == WriterNodes(ws)[..j] + [WriterNodes(ws)[j]];
      var es := BuildModifiesEdges(vs, ws[j].name, j);
      edges := edges + es;
      j := j + 1;
    }
    assert WriterNodes(ws)[..j] == WriterNodes(ws);
    g := Graph(nodes, edges);
  }

  // ---------------------------------------------------------------------
  // Properties

  /** The filter keeps exactly the functions that some variable lists as a
      writer, and never more functions than there are. */
  lemma {:induction false} WritersFacts(vs: seq<ContractState>, fs: seq<ContractFunction>)
    ensures |Writers(vs, fs)| <= |fs|
    ensures forall f :: f in Writers(vs, fs) <==> f in fs && ModifiesState(vs, f.name)
    decreases |fs|
  {
    if fs != [] {
      var init := fs[..|fs| - 1];
      WritersFacts(vs, init);
      assert fs == init + [Last(fs)];
    }
  }

  /** When every variable lists the same writers `all`, or none, and every
      function's name is among `all`, the writers are all functions or none. */
  lemma {:induction false} WritersUniform(vs: seq<ContractState>, fs: seq<ContractFunction>, all: seq<string>)
    requires forall k :: 0 <= k < |vs| ==> vs[k].modifiedBy == all || vs[k].modifiedBy == []
    requires forall i :: 0 <= i < |fs| ==> fs[i].name in all
    ensures Writers(vs, fs) == (if exists k :: 0 <= k < |vs| && vs[k].modifiedBy != [] then fs else [])
    decreases |fs|
  {
    if fs != [] {
      var init := fs[..|fs| - 1];
      var f := Last(fs);
      forall i | 0 <= i < |init| ensures init[i].name in all {
        assert init[i] == fs[i];
      }
      WritersUniform(vs, init, all);
      assert Writers(vs, fs) == Writers(vs, init) + (if ModifiesState(vs, f.name) then [f] else []);
      assert f.name in all by {
        assert f == fs[|fs| - 1];
      }
      if exists k :: 0 <= k < |vs| && vs[k].modifiedBy != [] {
        var k :| 0 <= k < |vs| && vs[k].modifiedBy != [];
        assert vs[k].modifiedBy == all;
        assert ModifiesState(vs, f.name);
        assert fs == init + [f];
      } else {
        forall k | 0 <= k < |vs| ensures f.name !in vs[k].modifiedBy {
          assert vs[k].modifiedBy == [];
        }
      }
    }
  }

  /** The case of a model analysed from source text, where each variable
      lists all function names as writers or none: the writers are then all
      functions or none, so node `function-<j>` of the state diagram is
      function `j` of the contract, as in the overview graph. */
  lemma WritersAllOrNothing(vs: seq<ContractState>, fs: seq<ContractFunction>)
    requires forall k :: 0 <= k < |vs| ==> vs[k].modifiedBy == Names(fs) || vs[k].modifiedBy == []
    ensures Writers(vs, fs) == (if exists k :: 0 <= k < |vs| && vs[k].modifiedBy != [] then fs else [])
  {
    forall i | 0 <= i < |fs| ensures fs[i].name in Names(fs) {
      assert Names(fs)[i] == fs[i].name;
    }
    WritersUniform(vs, fs, Names(fs));
  }

  /** For a model analysed from source text, the state diagram's writers
      are all of the contract's functions (when some variable is assigned in
      the text) or none. */
  lemma SourceWriters(input: SourceInput)
    ensures var c := SourceModel(input);
      Writers(c.stateVariables, c.functions) ==
        (if exists k :: 0 <= k < |c.stateVariables| && c.stateVariables[k].modifiedBy != [] then c.functions else [])
  {
    var c := SourceModel(input);
    forall k | 0 <= k < |c.stateVariables|
      ensures c.stateVariables[k].modifiedBy == Names(c.functions) || c.stateVariables[k].modifiedBy == []
    {
      SourceReadersWriters(input, k);
    }
    WritersAllOrNothing(c.stateVariables, c.functions);
  }

  /** The nodes: variable `k` at position `k`, then writer `j` after all
      variables. */
  lemma StateNodesAt(c: AnalyzedContract)
    ensures var vs := c.stateVariables;
      var ws := Writers(vs, c.functions);
      var nodes := StateGraph(c).nodes;
      && |nodes| == |vs| + |ws|
      && (forall k :: 0 <= k < |vs| ==> nodes[k] == Node(VariableId(k), k * 150, None))
      && (forall j :: 0 <= j < |ws| ==> nodes[|vs| + j] == Node(FunctionId(j), j * 150, None))
  {
  }

  lemma {:induction false} ModifiesEdgesMembers(vs: seq<ContractState>, name: string, j: nat, n: nat)
    requires n <= |vs|
    ensures forall e :: e in ModifiesEdges(vs, name, j, n) <==>
      exists k :: 0 <= k < n && name in vs[k].modifiedBy && e == ModifiesEdge(j, k)
  {
    if n > 0 {
      ModifiesEdgesMembers(vs, name, j, n - 1);
    }
  }

  lemma {:induction false} WriterEdgesMembers(vs: seq<ContractState>, ws: seq<ContractFunction>, n: nat)
    requires n <= |ws|
    ensures forall e :: e in WriterEdges(vs, ws, n) <==>
      exists j, k :: 0 <= j < n && 0 <= k < |vs| && ws[j].name in vs[k].modifiedBy && e == ModifiesEdge(j, k)
  {
    if n > 0 {
      WriterEdgesMembers(vs, ws, n - 1);
      ModifiesEdgesMembers(vs, ws[n - 1].name, n - 1, |vs|);
    }
  }

  /** Different (writer, variable) pairs give different edges. */
  lemma ModifiesEdgeInjective(j1: nat, k1: nat, j2: nat, k2: nat)
    requires ModifiesEdge(j1, k1) == ModifiesEdge(j2, k2)
    ensures j1 == j2 && k1 == k2
  {
    var a, b := NatToString(j1), NatToString(j2);
    assert FunctionId(j1) == FunctionPrefix + a && FunctionId(j2) == FunctionPrefix + b;
    assert a == FunctionId(j1)[|FunctionPrefix|..] && b == FunctionId(j2)[|FunctionPrefix|..];
    ParseNatToString(j1);
    ParseNatToString(j2);
    var p, q := NatToString(k1), NatToString(k2);
    assert p == VariableId(k1)[|VariablePrefix|..] && q == VariableId(k2)[|VariablePrefix|..];
    ParseNatToString(k1);
    ParseNatToString(k2);
  }

  /** Writer `j` has at most one edge to each variable. */
  lemma {:induction false} ModifiesEdgesDistinct(vs: seq<ContractState>, name: string, j: nat, n: nat)
    requires n <= |vs|
    ensures NoDup(ModifiesEdges(vs, name, j, n))
  {
    if n > 0 {
      var init := ModifiesEdges(vs, name, j, n - 1);
      ModifiesEdgesDistinct(vs, name, j, n - 1);
      ModifiesEdgesMembers(vs, name, j, n - 1);
      if name in vs[n - 1].modifiedBy {
        var e := ModifiesEdge(j, n - 1);
        forall x | x in init ensures x !in [e] {
          var k :| 0 <= k < n - 1 && name in vs[k].modifiedBy && x == ModifiesEdge(j, k);
          if x == e {
            ModifiesEdgeInjective(j, k, j, n - 1);
          }
        }
        NoDupAppend(init, [e]);
      } else {
        assert ModifiesEdges(vs, name, j, n) == init;
      }
    }
  }

  /** The edges of writer `n` are not among those of the writers before it. */
  lemma WriterGroupsDisjoint(vs: seq<ContractState>, ws: seq<ContractFunction>, n: nat)
    requires n < |ws|
    ensures forall x :: x in WriterEdges(vs, ws, n) ==> x !in ModifiesEdges(vs, ws[n].name, n, |vs|)
  {
    WriterEdgesMembers(vs, ws, n);
    ModifiesEdgesMembers(vs, ws[n].name, n, |vs|);
    forall x | x in WriterEdges(vs, ws, n) ensures x !in ModifiesEdges(vs, ws[n].name, n, |vs|) {
      var j, k :| 0 <= j < n && 0 <= k < |vs| && ws[j].name in vs[k].modifiedBy && x == ModifiesEdge(j, k);
      if x in ModifiesEdges(vs, ws[n].name, n, |vs|) {
        var k' :| 0 <= k' < |vs| && ws[n].name in vs[k'].modifiedBy && x == ModifiesEdge(n, k');
        ModifiesEdgeInjective(j, k, n, k');
      }
    }
  }

  /** No edge is drawn twice. */
  lemma {:induction false} WriterEdgesDistinct(vs: seq<ContractState>, ws: seq<ContractFunction>, n: nat)
    requires n <= |ws|
    ensures NoDup(WriterEdges(vs, ws, n))
  {
    if n > 0 {
      WriterEdgesDistinct(vs, ws, n - 1);
      ModifiesEdgesDistinct(vs, ws[n - 1].name, n - 1, |vs|);
      WriterGroupsDisjoint(vs, ws, n - 1);
      NoDupAppend(WriterEdges(vs, ws, n - 1), ModifiesEdges(vs, ws[n - 1].name, n - 1, |vs|));
    }
  }

  /** The edges are exactly the `modifies` edges from writer `j` to each
      variable `k` that lists it: every such pair has its edge, there is no
      other edge, and none is drawn twice. */
  lemma StateEdges(c: AnalyzedContract)
    ensures var vs := c.stateVariables;
      var ws := Writers(vs, c.functions);
      forall e :: e in StateGraph(c).edges <==>
        exists j, k :: 0 <= j < |ws| && 0 <= k < |vs| && ws[j].name in vs[k].modifiedBy && e == ModifiesEdge(j, k)
    ensures NoDup(StateGraph(c).edges)
  {
    var vs := c.stateVariables;
    WriterEdgesMembers(vs, Writers(vs, c.functions), |Writers(vs, c.functions)|);
    WriterEdgesDistinct(vs, Writers(vs, c.functions), |Writers(vs, c.functions)|);
  }
}
