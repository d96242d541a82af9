/** The `{ nodes, edges }` value the diagram builders return, reduced to
    what the model keeps: identifiers, the vertical position, the animation
    flag and the label texts that are part of the model (`None` where a
    node's or an edge's label is not). */
module Graph {
  import opened Wrappers

  datatype Node = Node(id: string, y: int, caption: Option<string>)

  datatype Edge = Edge(id: string, source: string, target: string, animated: bool, caption: Option<string>)

  datatype Graph = Graph(nodes: seq<Node>, edges: seq<Edge>)
}
