/** `generateSubFlowElements` (app/components/FunctionSubFlow.tsx): the
    detail graph of one function. The function box sits on top; its inputs
    (left) and modifiers (right) share the rows below it; the dependencies
    follow below those rows and the outputs below the dependencies, each list
    one box per row, `80` apart. Inputs point into the function box, every
    other box hangs off it. */
module SubFlow {
  import opened Wrappers
  import opened Text
  import opened ContractModel
  import opened Graph
  import opened FlowGraph

  const RootId := "function"
  const InputPrefix := "input-"
  const ModifierPrefix := "modifier-"
  const DependencyPrefix := "dep-"
  const OutputPrefix := "output-"

  const InputText := "Input: "
  const TypeText := "\nType: "
  const ModifierText := "Modifier: "
  const CallsText := "Calls: "
  const OutputText := "Output: "
  const Unnamed := "return"

  /** Below the function box, the rows start here. */
  const FirstRow := 100
  const RowHeight := 80
  const GroupGap := 50

  function ItemId(prefix: string, i: nat): string { prefix + NatToString(i) }

  function InputCaption(p: Param): string { InputText + p.name + TypeText + p.typ }

  /** An unnamed output is shown as `return`. */
  function OutputName(p: Param): string { if p.name == "" then Unnamed else p.name }

  function OutputCaption(p: Param): string { OutputText + OutputName(p) + TypeText + p.typ }

  function ModifierCaptions(ms: seq<string>): seq<string> {
    seq(|ms|, i requires 0 <= i < |ms| => ModifierText + ms[i])
  }

  function DependencyCaptions(ds: seq<string>): seq<string> {
    seq(|ds|, i requires 0 <= i < |ds| => CallsText + ds[i])
  }

  function OutputCaptions(ps: seq<Param>): seq<string> {
    seq(|ps|, i requires 0 <= i < |ps| => OutputCaption(ps[i]))
  }

  function InputCaptions(ps: seq<Param>): seq<string> {
    seq(|ps|, i requires 0 <= i < |ps| => InputCaption(ps[i]))
  }

  /** One box per caption, `prefix<i>` in row `i` from `y0`. */
  function Boxes(prefix: string, captions: seq<string>, y0: int): seq<Node> {
    seq(|captions|, i requires 0 <= i < |captions| => Node(ItemId(prefix, i), y0 + i * RowHeight, Some(captions[i])))
  }

  /** `e-input-<i>-function`, into the function box. */
  function InputEdges(n: nat): seq<Edge> {
    seq(n, i requires 0 <= i < n =>
      Edge(EdgePrefix + ItemId(InputPrefix, i) + Dash + RootId, ItemId(InputPrefix, i), RootId, true, None))
  }

  /** `e-function-<prefix><i>`, out of the function box. */
  function OutEdges(prefix: string, n: nat): seq<Edge> {
    seq(n, i requires 0 <= i < n =>
      Edge(EdgePrefix + RootId + Dash + ItemId(prefix, i), RootId, ItemId(prefix, i), true, None))
  }

  /** Where the dependency rows start: below the longer of the input and
      modifier lists. */
  function DependencyTop(f: ContractFunction): int {
    FirstRow + Max(|f.inputs|, |f.modifiers|) * RowHeight + GroupGap
  }

  /** Where the output rows start: below the dependencies, or one row below
      the first row when there are none. */
  function OutputTop(f: ContractFunction): int {
    if |f.dependencies| > 0 then DependencyTop(f) + |f.dependencies| * RowHeight + GroupGap
    else FirstRow + RowHeight + GroupGap
  }

  function SubFlowGraph(f: ContractFunction): Graph {
    Graph(
      [Node(RootId, 0, None)]
        + Boxes(InputPrefix, InputCaptions(f.inputs), FirstRow)
        + Boxes(ModifierPrefix, ModifierCaptions(f.modifiers), FirstRow)
        + Boxes(DependencyPrefix, DependencyCaptions(f.dependencies), DependencyTop(f))
        + Boxes(OutputPrefix, OutputCaptions(f.outputs), OutputTop(f)),
      InputEdges(|f.inputs|)
        + OutEdges(ModifierPrefix, |f.modifiers|)
        + OutEdges(DependencyPrefix, |f.dependencies|)
        + OutEdges(OutputPrefix, |f.outputs|))
  }

  /** The input loop. */
  method BuildInputs(ps: seq<Param>, y0: int) returns (nodes: seq<Node>, edges: seq<Edge>)
    ensures nodes == Boxes(InputPrefix, InputCaptions(ps), y0) && edges == InputEdges(|ps|)
  {
    nodes, edges := [], [];
    var i := 0;
    while i < |ps|
      invariant 0 <= i <= |ps|
      invariant nodes == Boxes(InputPrefix, InputCaptions(ps), y0)[..i]
      invariant edges == InputEdges(|ps|)[..i]
    {
      var nodeId := ItemId(InputPrefix, i);
      nodes := nodes + [Node(nodeId, y0 + i * RowHeight, Some(InputText + ps[i].name + TypeText + ps[i].typ))];
      edges := edges + [Edge(EdgePrefix + nodeId + Dash + RootId, nodeId, RootId, true, None)];
      assert Boxes(InputPrefix, InputCaptions(ps), y0)[..i + 1]
        == Boxes(InputPrefix, InputCaptions(ps), y0)[..i] + [Boxes(InputPrefix, InputCaptions(ps), y0)[i]];
      assert InputEdges(|ps|)[..i + 1] == InputEdges(|ps|)[..i] + [InputEdges(|ps|)[i]];
      i := i + 1;
    }
    assert Boxes(InputPrefix, InputCaptions(ps), y0)[..i] == Boxes(InputPrefix, InputCaptions(ps), y0);
    assert InputEdges(|ps|)[..i] == InputEdges(|ps|);
  }

  /** The modifier, dependency and output loops: one box per caption and an
      edge to it from the function box. */
  method BuildOutgoing(prefix: string, captions: seq<string>, y0: int) returns (nodes: seq<Node>, edges: seq<Edge>)
    ensures nodes == Boxes(prefix, captions, y0) && edges == OutEdges(prefix, |captions|)
  {
    nodes, edges := [], [];
    var i := 0;
    while i < |captions|
      invariant 0 <= i <= |captions|
      invariant nodes == Boxes(prefix, captions, y0)[..i]
      invariant edges == OutEdges(prefix, |captions|)[..i]
    {
      var nodeId := ItemId(prefix, i);
      nodes := nodes + [Node(nodeId, y0 + i * RowHeight, Some(captions[i]))];
      edges := edges + [Edge(EdgePrefix + RootId + Dash + nodeId, RootId, nodeId, true, None)];
      assert Boxes(prefix, captions, y0)[..i + 1] == Boxes(prefix, captions, y0)[..i] + [Boxes(prefix, captions, y0)[i]];
      assert OutEdges(prefix, |captions|)[..i + 1] == OutEdges(prefix, |captions|)[..i] + [OutEdges(prefix, |captions|)[i]];
      i := i + 1;
    }
    assert Boxes(prefix, captions, y0)[..i] == Boxes(prefix, captions, y0);
    assert OutEdges(prefix, |captions|)[..i] == OutEdges(prefix, |captions|);
  }

  /** `generateSubFlowElements`, with its running `yOffset`. */
  method GenerateSubFlowElements(f: ContractFunction) returns (g: Graph)
    ensures g == SubFlowGraph(f)
  {
    ghost var inputs := Boxes(InputPrefix, InputCaptions(f.inputs), FirstRow);
    ghost var modifiers := Boxes(ModifierPrefix, ModifierCaptions(f.modifiers), FirstRow);
    ghost var calls := Boxes(DependencyPrefix, DependencyCaptions(f.dependencies), DependencyTop(f));
    ghost var outputs := Boxes(OutputPrefix, OutputCaptions(f.outputs), OutputTop(f));
    var nodes := [Node(RootId, 0, None)];
    var edges := [];
    var yOffset := 0;
    yOffset := yOffset + FirstRow;
    if |f.inputs| > 0 {
      var ns, es := BuildInputs(f.inputs, yOffset);
      nodes, edges := nodes + ns, edges + es;
    } else {
      assert inputs == [] && InputEdges(|f.inputs|) == [];
    }
    assert nodes == [Node(RootId, 0, None)] + inputs && edges == InputEdges(|f.inputs|);
    ghost var nodes1, edges1 := nodes, edges;
    if |f.modifiers| > 0 {
      var ns, es := BuildOutgoing(ModifierPrefix, ModifierCaptions(f.modifiers), yOffset);
      nodes, edges := nodes + ns, edges + es;
    } else {
      assert modifiers == [] && OutEdges(ModifierPrefix, |f.modifiers|) == [];
    }
    assert nodes == nodes1 + modifiers && edges == edges1 + OutEdges(ModifierPrefix, |f.modifiers|);
    ghost var nodes2, edges2 := nodes, edges;
    if |f.dependencies| > 0 {
      yOffset := yOffset + Max(|f.inputs|, |f.modifiers|) * RowHeight + GroupGap;
      var ns, es := BuildOutgoing(DependencyPrefix, DependencyCaptions(f.dependencies), yOffset);
      nodes, edges := nodes + ns, edges + es;
    } else {
      assert calls == [] && OutEdges(DependencyPrefix, |f.dependencies|) == [];
    }
    assert nodes == nodes2 + calls && edges == edges2 + OutEdges(DependencyPrefix, |f.dependencies|);
    ghost var nodes3, edges3 := nodes, edges;
    if |f.outputs| > 0 {
      yOffset := yOffset + (if |f.dependencies| > 0 then |f.dependencies| else 1) * RowHeight + GroupGap;
      assert yOffset == OutputTop(f);
      var ns, es := BuildOutgoing(OutputPrefix, OutputCaptions(f.outputs), yOffset);
      nodes, edges := nodes + ns, edges + es;
    } else {
      assert outputs == [] && OutEdges(OutputPrefix, |f.outputs|) == [];
    }
    assert nodes == nodes3 + outputs && edges == edges3 + OutEdges(OutputPrefix, |f.outputs|);
    g := Graph(nodes, edges);
  }

  // ---------------------------------------------------------------------
  // Properties

  /** One box for the function and one per input, modifier, dependency and
      output; one edge per box other than the function's. */
  lemma SubFlowCounts(f: ContractFunction)
    ensures var g := SubFlowGraph(f);
      && |g.nodes| == 1 + |f.inputs| + |f.modifiers| + |f.dependencies| + |f.outputs|
      && |g.edges| == |g.nodes| - 1
      && g.nodes[0] == Node(RootId, 0, None)
  {
  }

  /** Node `m` of the inputs, modifiers, dependencies and outputs (lying
      after the function box) is joined to the function box by edge `m - 1`:
      an input's edge points into the function box, every other edge out of
      it, and every edge is animated. */
  lemma SubFlowEdgeOf(f: ContractFunction, m: nat)
    requires 1 <= m < |SubFlowGraph(f).nodes|
    ensures var g := SubFlowGraph(f);
      var e := g.edges[m - 1];
      && e.animated
      && (m <= |f.inputs| ==> e.source == g.nodes[m].id && e.target == RootId)
      && (m > |f.inputs| ==> e.source == RootId && e.target == g.nodes[m].id)
  {
    var g := SubFlowGraph(f);
    var a, b, d := 1 + |f.inputs|, 1 + |f.inputs| + |f.modifiers|, 1 + |f.inputs| + |f.modifiers| + |f.dependencies|;
    var n1 := [Node(RootId, 0, None)] + Boxes(InputPrefix, InputCaptions(f.inputs), FirstRow);
    var n2 := n1 + Boxes(ModifierPrefix, ModifierCaptions(f.modifiers), FirstRow);
    var n3 := n2 + Boxes(DependencyPrefix, DependencyCaptions(f.dependencies), DependencyTop(f));
    var e1 := InputEdges(|f.inputs|);
    var e2 := e1 + OutEdges(ModifierPrefix, |f.modifiers|);
    var e3 := e2 + OutEdges(DependencyPrefix, |f.dependencies|);
    assert g.nodes == n3 + Boxes(OutputPrefix, OutputCaptions(f.outputs), OutputTop(f));
    assert g.edges == e3 + OutEdges(OutputPrefix, |f.outputs|);
    if m < a {
      assert g.nodes[m] == n1[m] && g.edges[m - 1] == e1[m - 1];
    } else if m < b {
      assert g.nodes[m] == n2[m] && g.edges[m - 1] == e2[m - 1];
    } else if m < d {
      assert g.nodes[m] == n3[m] && g.edges[m - 1] == e3[m - 1];
    }
  }

  /** The middle column from the top: the function box, the dependencies
      (starting `130` below the last row of inputs or modifiers and at least
      `150` below the function box), then the outputs (starting `130` below
      the last dependency, or at `230` when there is none). */
  lemma SubFlowColumn(f: ContractFunction)
    ensures forall i :: 0 <= i < |f.inputs| ==> FirstRow + i * RowHeight + RowHeight + GroupGap <= DependencyTop(f)
    ensures forall i :: 0 <= i < |f.modifiers| ==> FirstRow + i * RowHeight + RowHeight + GroupGap <= DependencyTop(f)
    ensures DependencyTop(f) >= FirstRow + GroupGap
    ensures forall i :: 0 <= i < |f.dependencies| ==>
      DependencyTop(f) + i * RowHeight + RowHeight + GroupGap <= OutputTop(f)
    ensures |f.dependencies| == 0 ==> OutputTop(f) == FirstRow + RowHeight + GroupGap
  {
  }

  /** The rows of the inputs, modifiers, dependencies and outputs, with
      their captions; an unnamed output reads `return`. */
  lemma SubFlowBoxes(f: ContractFunction)
    ensures var nodes := SubFlowGraph(f).nodes;
      var a := 1 + |f.inputs|;
      var b := a + |f.modifiers|;
      var d := b + |f.dependencies|;
      && |nodes| == d + |f.outputs|
      && (forall i :: 0 <= i < |f.inputs| ==>
            nodes[1 + i] == Node(ItemId(InputPrefix, i), FirstRow + i * RowHeight,
                                 Some(InputText + f.inputs[i].name + TypeText + f.inputs[i].typ)))
      && (forall i :: 0 <= i < |f.modifiers| ==>
            nodes[a + i] == Node(ItemId(ModifierPrefix, i), FirstRow + i * RowHeight, Some(ModifierText + f.modifiers[i])))
      && (forall i :: 0 <= i < |f.dependencies| ==>
            nodes[b + i] == Node(ItemId(DependencyPrefix, i), DependencyTop(f) + i * RowHeight, Some(CallsText + f.dependencies[i])))
      && (forall i :: 0 <= i < |f.outputs| ==>
            nodes[d + i] == Node(ItemId(OutputPrefix, i), OutputTop(f) + i * RowHeight,
                                 Some(OutputText + (if f.outputs[i].name == "" then Unnamed else f.outputs[i].name) + TypeText + f.outputs[i].typ)))
  {
    var nodes := SubFlowGraph(f).nodes;
    var n1 := [Node(RootId, 0, None)] + Boxes(InputPrefix, InputCaptions(f.inputs), FirstRow);
    var n2 := n1 + Boxes(ModifierPrefix, ModifierCaptions(f.modifiers), FirstRow);
    var n3 := n2 + Boxes(DependencyPrefix, DependencyCaptions(f.dependencies), DependencyTop(f));
    assert nodes == n3 + Boxes(OutputPrefix, OutputCaptions(f.outputs), OutputTop(f));
    forall j | 1 <= j < |n1| ensures nodes[j] == n1[j] { }
    forall j | |n1| <= j < |n2| ensures nodes[j] == n2[j] { }
    forall j | |n2| <= j < |n3| ensures nodes[j] == n3[j] { }
  }
}
