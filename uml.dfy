/** `generateUMLDiagram` (app/lib/contractAnalyzer.ts): a class box for the
    contract listing its members, one box above it per parent with an edge
    into the contract, and one box per event. */
module Uml {
  import opened Wrappers
  import opened Text
  import opened Seqs
  import opened ContractModel
  import opened Graph
  import opened FlowGraph

  const Rule := "------------------------------"
  const NewLine := "\n"
  const Comma := ", "
  const Colon := ": "
  const ParentPrefix := "parent-"
  const Void := "void"

  function ParentId(k: nat): string { ParentPrefix + NatToString(k) }

  /** `-` for a private member, `+` for any other. */
  function Marker(visibility: string): string {
    if visibility == "private" then "-" else "+"
  }

  function StateLine(v: ContractState): string {
    Marker(v.visibility) + " " + v.name + Colon + v.typ
  }

  function ParamText(p: Param): string { p.name + Colon + p.typ }

  function OutputTypes(outputs: seq<Param>): string {
    Join(seq(|outputs|, i requires 0 <= i < |outputs| => outputs[i].typ), Comma)
  }

  /** The output types joined, or `void` when that gives the empty text. */
  function ReturnText(outputs: seq<Param>): string {
    if OutputTypes(outputs) == "" then Void else OutputTypes(outputs)
  }

  /** The part of a function line between the marker and the return text. */
  function Signature(f: ContractFunction): string {
    " " + f.name + "(" + Join(seq(|f.inputs|, i requires 0 <= i < |f.inputs| => ParamText(f.inputs[i])), Comma) + ")" + Colon
  }

  function FunctionLine(f: ContractFunction): string {
    Marker(f.visibility) + Signature(f) + ReturnText(f.outputs)
  }

  /** The class box: the name, a rule, one line per state variable, a rule,
      one line per function. */
  function ClassLabel(c: AnalyzedContract): string {
    c.name + NewLine + Rule + NewLine
      + Join(seq(|c.stateVariables|, i requires 0 <= i < |c.stateVariables| => StateLine(c.stateVariables[i])), NewLine)
      + NewLine + Rule + NewLine
      + Join(seq(|c.functions|, i requires 0 <= i < |c.functions| => FunctionLine(c.functions[i])), NewLine)
  }

  function ParentNodes(parents: seq<string>): seq<Node> {
    seq(|parents|, k requires 0 <= k < |parents| => Node(ParentId(k), -100, Some(parents[k])))
  }

  /** `e-parent-<k>-contract`, drawn without animation. */
  function ParentEdges(parents: seq<string>): seq<Edge> {
    seq(|parents|, k requires 0 <= k < |parents| =>
      Edge("e-" + ParentId(k) + "-" + ContractId, ParentId(k), ContractId, false, None))
  }

  function UmlEventNodes(es: seq<ContractEvent>): seq<Node> {
    seq(|es|, k requires 0 <= k < |es| => Node(EventId(k), 100 + k * 150, None))
  }

  function UmlDiagram(c: AnalyzedContract): Graph {
    Graph(
      [Node(ContractId, 0, Some(ClassLabel(c)))] + ParentNodes(c.inheritance) + UmlEventNodes(c.events),
      ParentEdges(c.inheritance))
  }

  method BuildParents(parents: seq<string>) returns (nodes: seq<Node>, edges: seq<Edge>)
    ensures nodes == ParentNodes(parents) && edges == ParentEdges(parents)
  {
    nodes, edges := [], [];
    var k := 0;
    while k < |parents|
      invariant 0 <= k <= |parents|
      invariant nodes == ParentNodes(parents)[..k]
      invariant edges == ParentEdges(parents)[..k]
    {
      var id := ParentId(k);
      nodes := nodes + [Node(id, -100, Some(parents[k]))];
      edges := edges + [Edge("e-" + id + "-" + ContractId, id, ContractId, false, None)];
      assert ParentNodes(parents)[..k + 1] == ParentNodes(parents)[..k] + [ParentNodes(parents)[k]];
      assert ParentEdges(parents)[..k + 1] == ParentEdges(parents)[..k] + [ParentEdges(parents)[k]];
      k := k + 1;
    }
    assert ParentNodes(parents)[..k] == ParentNodes(parents);
    assert ParentEdges(parents)[..k] == ParentEdges(parents);
  }

  method BuildUmlEvents(es: seq<ContractEvent>) returns (nodes: seq<Node>)
    ensures nodes == UmlEventNodes(es)
  {
    nodes := [];
    var k := 0;
    while k < |es|
      invariant 0 <= k <= |es|
      invariant nodes == UmlEventNodes(es)[..k]
    {
      nodes := nodes + [Node(EventId(k), 100 + k * 150, None)];
      assert UmlEventNodes(es)[..k + 1] == UmlEventNodes(es)[..k] + [UmlEventNodes(es)[k]];
      k := k + 1;
    }
    assert UmlEventNodes(es)[..k] == UmlEventNodes(es);
  }

  /** `generateUMLDiagram`. */
  method GenerateUMLDiagram(c: AnalyzedContract) returns (g: Graph)
    ensures g == UmlDiagram(c)
  {
    var nodes := [Node(ContractId, 0, Some(ClassLabel(c)))];
    var parentNodes, edges := BuildParents(c.inheritance);
    var eventNodes := BuildUmlEvents(c.events);
    g := Graph(nodes + parentNodes + eventNodes, edges);
  }

  /** The diagram has the class box, one box per parent, above it, and one
      box per event; there is exactly one edge per parent, from `parent-<k>`
      into the contract, drawn without animation. */
  lemma UmlShape(c: AnalyzedContract)
    ensures var nodes := UmlDiagram(c).nodes;
      && |nodes| == 1 + |c.inheritance| + |c.events|
      && nodes[0].id == ContractId
      && (forall k :: 0 <= k < |c.inheritance| ==> nodes[1 + k] == Node(ParentId(k), -100, Some(c.inheritance[k])))
      && (forall k :: 0 <= k < |c.events| ==> nodes[1 + |c.inheritance| + k] == Node(EventId(k), 100 + k * 150, None))
    ensures var edges := UmlDiagram(c).edges;
      && |edges| == |c.inheritance|
      && (forall k :: 0 <= k < |edges| ==>
            edges[k].source == ParentId(k) && edges[k].target == ContractId && !edges[k].animated)
  {
    var nodes := UmlDiagram(c).nodes;
    var front := [Node(ContractId, 0, Some(ClassLabel(c)))] + ParentNodes(c.inheritance);
    assert nodes == front + UmlEventNodes(c.events);
    forall k | 0 <= k < |c.inheritance| ensures nodes[1 + k] == ParentNodes(c.inheritance)[k] {
      assert nodes[1 + k] == front[1 + k];
    }
  }

  /** A member line starts with `-` exactly for a private member and with
      `+` otherwise. */
  lemma MemberMarkers(v: ContractState, f: ContractFunction)
    ensures StateLine(v)[0] == (if v.visibility == "private" then '-' else '+')
    ensures FunctionLine(f)[0] == (if f.visibility == "private" then '-' else '+')
  {
    assert StateLine(v) == Marker(v.visibility) + (" " + v.name + Colon + v.typ);
    assert FunctionLine(f) == Marker(f.visibility) + (Signature(f) + ReturnText(f.outputs));
  }

  /** A function line ends in its output types, or in `void` when they give
      no text. */
  lemma FunctionLineEnd(f: ContractFunction)
    ensures var line := FunctionLine(f);
      var tail := if OutputTypes(f.outputs) == "" then Void else OutputTypes(f.outputs);
      |tail| <= |line| && line[|line| - |tail|..] == tail
  {
    var head := Marker(f.visibility) + Signature(f);
    assert FunctionLine(f) == head + ReturnText(f.outputs);
  }
}
