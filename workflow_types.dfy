/** The shapes of the workflow records: nodes and edges as the canvas library
    and the store hold them, the graph stored under a workflow's `data`, and
    the per-kind payload a node's `data` is expected to carry. */
module WorkflowTypes {
  import opened Common
  import opened JsValues
  import opened Seqs

  /** `'trigger' | 'action' | 'condition'` */
  datatype NodeType = Trigger | Action | Condition

  function TypeName(t: NodeType): string
  {
    match t
    case Trigger => "trigger"
    case Action => "action"
    case Condition => "condition"
  }

  datatype Position = Position(x: real, y: real)

  /** A canvas node. `nodeType` is the record's `type` field: a plain
      string, since records read back from storage are not checked against
      `NodeType`. Its `data` is an untyped object. */
  datatype Node = Node(id: string, nodeType: string, position: Position, data: Object)

  /** What the canvas reports when the user drags a connection. */
  datatype Connection = Connection(
    source: Option<string>,
    target: Option<string>,
    sourceHandle: Option<string>,
    targetHandle: Option<string>)

  datatype Edge = Edge(
    id: string,
    source: Option<string>,
    target: Option<string>,
    sourceHandle: Option<string>,
    targetHandle: Option<string>,
    edgeType: Option<string>)  // the record's `type` field

  /** The `data` field of a workflow record. */
  datatype Graph = Graph(nodes: seq<Node>, edges: seq<Edge>)

  const EmptyGraph := Graph([], [])

  datatype Workflow = Workflow(
    id: string,
    name: string,
    description: string,
    data: Graph,
    created_at: string,
    updated_at: string)

  /** A workflow row as storage returns it: `data` may be missing. */
  datatype StoredWorkflow = StoredWorkflow(
    id: string,
    name: string,
    description: string,
    data: Option<Graph>,
    created_at: string,
    updated_at: string)

  /** `Partial<Workflow>`: `None` is an absent key. */
  datatype WorkflowPatch = WorkflowPatch(
    id: Option<string>,
    name: Option<string>,
    description: Option<string>,
    data: Option<Graph>,
    created_at: Option<string>,
    updated_at: Option<string>)

  /** The row `createWorkflow` inserts; storage assigns id and timestamps. */
  datatype NewWorkflowRow = NewWorkflowRow(name: string, description: string, data: Graph)

  function NodeIds(nodes: seq<Node>): seq<string>
  {
    Map(nodes, (n: Node) => n.id)
  }

  predicate NamesNode(nodes: seq<Node>, end: Option<string>)
  {
    end.Some? && end.value in NodeIds(nodes)
  }

  /** Node ids are unique and every edge's `source` and `target` name a node
      of the same graph. Nothing in the store enforces this. */
  predicate WellFormed(g: Graph)
  {
    && NoDuplicates(NodeIds(g.nodes))
    && forall i :: 0 <= i < |g.edges| ==>
         NamesNode(g.nodes, g.edges[i].source) && NamesNode(g.nodes, g.edges[i].target)
  }

  /** The options the config panel offers for each selector. */
  const TriggerTypes: seq<string> := ["webhook", "schedule", "event"]
  const ActionTypes: seq<string> := ["http", "email", "database"]
  const Operators: seq<string> := ["equals", "not-equals", "greater-than", "less-than", "contains"]

  predicate IsOneOf(v: Value, options: seq<string>)
  {
    v.Str? && v.s in options
  }

  /** The payload a node of the given type is meant to carry: a string
      `name`, and per type the selector value and its `config` object, or the
      three-field `condition`. */
  predicate ConformsTo(nodeType: string, d: Object)
  {
    && Get(d, "name").Str?
    && (nodeType == "trigger" ==>
          IsOneOf(Get(d, "triggerType"), TriggerTypes) && Get(d, "config").Obj?)
    && (nodeType == "action" ==>
          IsOneOf(Get(d, "actionType"), ActionTypes) && Get(d, "config").Obj?)
    && (nodeType == "condition" ==>
          var c := Get(d, "condition");
          && c.Obj?
          && c.fields.Keys == {"left", "operator", "right"}
          && c.fields["left"].Str?
          && IsOneOf(c.fields["operator"], Operators)
          && c.fields["right"].Str?)
  }
}
