/** The workflow store: the list of workflows, the open workflow whose graph
    lives in `data.nodes` / `data.edges`, and the actions that change them.
    Each persisted action builds the next state from a snapshot, makes one
    call to the persistence client, and commits only when that call succeeds.
    The client calls appear as parameters: nullary calls as their reply,
    calls that send something as a function from the request to the reply. */
module WorkflowStore {
  import opened Common
  import opened JsValues
  import opened Seqs
  import opened WorkflowTypes

  // ---------------------------------------------------------------------
  // Node payloads and ids

  /** `getDefaultNodeData(type)` */
  function DefaultNodeData(nodeType: string): (d: Object)
    ensures nodeType in {"trigger", "action", "condition"} ==> ConformsTo(nodeType, d)
    ensures nodeType !in {"trigger", "action", "condition"} ==> d == map["name" := Str("Unknown Node")]
    ensures Truthy(Get(d, "name"))
  {
    if nodeType == "trigger" then
      map["name" := Str("New Trigger"), "triggerType" := Str("webhook"), "config" := Obj(map[])]
    else if nodeType == "action" then
      map["name" := Str("New Action"), "actionType" := Str("http"), "config" := Obj(map[])]
    else if nodeType == "condition" then
      map["name" := Str("New Condition"),
          "condition" := Obj(map["left" := Str(""), "operator" := Str("equals"), "right" := Str("")])]
    else
      map["name" := Str("Unknown Node")]
  }

  /** The fixed default of each kind. */
  lemma DefaultNodeDataValues()
    ensures DefaultNodeData("trigger")
      == map["name" := Str("New Trigger"), "triggerType" := Str("webhook"), "config" := Obj(map[])]
    ensures DefaultNodeData("action")
      == map["name" := Str("New Action"), "actionType" := Str("http"), "config" := Obj(map[])]
    ensures DefaultNodeData("condition")
      == map["name" := Str("New Condition"),
             "condition" := Obj(map["left" := Str(""), "operator" := Str("equals"), "right" := Str("")])]
    ensures DefaultNodeData("webhook") == map["name" := Str("Unknown Node")]
  {
  }

  /** The alphabet of `nanoid`. */
  const NanoidAlphabet: string := "ABCDEFGHIJKLMNOPQRSTUVWXYZabcdefghijklmnopqrstuvwxyz0123456789_-"

  /** What `nanoid(6)` produces: six characters of its alphabet. */
  predicate IsNanoidSuffix(s: string)
  {
    |s| == 6 && forall i :: 0 <= i < |s| ==> s[i] in NanoidAlphabet
  }

  /** `${type}-${nanoid(6)}` */
  function NodeId(t: NodeType, suffix: string): string
  {
    TypeName(t) + "-" + suffix
  }

  /** `"edge-" + nanoid(6)` */
  function EdgeId(suffix: string): string
  {
    "edge-" + suffix
  }

  function SuffixAfter(id: string, prefix: string): Option<string>
  {
    if |id| == |prefix| + 6 && id[..|prefix|] == prefix && IsNanoidSuffix(id[|prefix|..])
    then Some(id[|prefix|..]) else None
  }

  /** Recognises the node id format `^(trigger|action|condition)-[A-Za-z0-9_-]{6}$`. */
  function ParseNodeId(id: string): (r: Option<(NodeType, string)>)
    ensures r.Some? ==> IsNanoidSuffix(r.value.1) && id == NodeId(r.value.0, r.value.1)
  {
    match SuffixAfter(id, "trigger-")
    case Some(s) =>
      assert id == id[..8] + id[8..];
      Some((Trigger, s))
    case None =>
      match SuffixAfter(id, "action-")
      case Some(s) =>
        assert id == id[..7] + id[7..];
        Some((Action, s))
      case None =>
        match SuffixAfter(id, "condition-")
        case Some(s) =>
          assert id == id[..10] + id[10..];
          Some((Condition, s))
        case None => None
  }

  /** Every id `addNode` gives a node has the documented format, and the
      format determines the node type and the suffix. */
  lemma NodeIdRoundTrip(t: NodeType, suffix: string)
    requires IsNanoidSuffix(suffix)
    ensures ParseNodeId(NodeId(t, suffix)) == Some((t, suffix))
  {
    var id := NodeId(t, suffix);
    var p := TypeName(t) + "-";
    assert id == p + suffix && id[..|p|] == p && id[|p|..] == suffix;
  }

  /** The node `addNode` builds (206-211). */
  function NewNode(t: NodeType, position: Position, suffix: string): (n: Node)
    requires IsNanoidSuffix(suffix)
    ensures ParseNodeId(n.id) == Some((t, suffix))
    ensures n.nodeType == TypeName(t) && n.position == position
    ensures ConformsTo(n.nodeType, n.data)
  {
    NodeIdRoundTrip(t, suffix);
    Node(NodeId(t, suffix), TypeName(t), position, DefaultNodeData(TypeName(t)))
  }

  /** The edge `connectNodes` builds (303-306): the connection's fields, then
      an `id` of its own. */
  function NewEdge(c: Connection, suffix: string): (e: Edge)
    ensures e.id == EdgeId(suffix)
    ensures e.source == c.source && e.target == c.target
    ensures e.sourceHandle == c.sourceHandle && e.targetHandle == c.targetHandle
    ensures e.edgeType.None?
  {
    Edge(EdgeId(suffix), c.source, c.target, c.sourceHandle, c.targetHandle, None)
  }

  // ---------------------------------------------------------------------
  // Graph builders

  /** The graph `addNode` saves (213, 218-221): the node appended. */
  function WithNodeAdded(g: Graph, n: Node): (r: Graph)
    ensures r.edges == g.edges
    ensures |r.nodes| == |g.nodes| + 1 && r.nodes[..|g.nodes|] == g.nodes && r.nodes[|g.nodes|] == n
  {
    g.(nodes := g.nodes + [n])
  }

  /** `{ ...node, data: { ...node.data, ...patch } }` on the node with the id. */
  function PatchNode(n: Node, id: string, patch: Object): (r: Node)
    ensures r.id == n.id && r.nodeType == n.nodeType && r.position == n.position
    ensures n.id != id ==> r == n
    ensures n.id == id ==> r.data.Keys == n.data.Keys + patch.Keys
    ensures n.id == id ==> forall k :: k in patch ==> r.data[k] == patch[k]
    ensures n.id == id ==> forall k :: k in n.data && k !in patch ==> r.data[k] == n.data[k]
  {
    if n.id == id then n.(data := n.data + patch) else n
  }

  /** The node list `updateNode` saves (248-250). */
  function UpdateNodes(nodes: seq<Node>, id: string, patch: Object): (r: seq<Node>)
    ensures |r| == |nodes|
    ensures forall i :: 0 <= i < |nodes| ==>
      r[i].id == nodes[i].id && r[i].nodeType == nodes[i].nodeType && r[i].position == nodes[i].position
    ensures forall i :: 0 <= i < |nodes| && nodes[i].id != id ==> r[i] == nodes[i]
    ensures forall i :: 0 <= i < |nodes| && nodes[i].id == id ==>
      && r[i].data.Keys == nodes[i].data.Keys + patch.Keys
      && (forall k :: k in patch ==> r[i].data[k] == patch[k])
      && (forall k :: k in nodes[i].data && k !in patch ==> r[i].data[k] == nodes[i].data[k])
  {
    if nodes == [] then [] else [PatchNode(nodes[0], id, patch)] + UpdateNodes(nodes[1..], id, patch)
  }

  /** A patch for an id no node has leaves the node list equal. */
  lemma UpdateNodesAbsent(nodes: seq<Node>, id: string, patch: Object)
    requires id !in NodeIds(nodes)
    ensures UpdateNodes(nodes, id, patch) == nodes
  {
    var r := UpdateNodes(nodes, id, patch);
    forall i | 0 <= i < |nodes| ensures r[i] == nodes[i] {
      assert NodeIds(nodes)[i] == nodes[i].id;
    }
  }

  /** Applying the same patch twice is applying it once. */
  lemma UpdateNodesIdempotent(nodes: seq<Node>, id: string, patch: Object)
    ensures UpdateNodes(UpdateNodes(nodes, id, patch), id, patch) == UpdateNodes(nodes, id, patch)
  {
    var once := UpdateNodes(nodes, id, patch);
    var twice := UpdateNodes(once, id, patch);
    forall i | 0 <= i < |nodes| ensures twice[i] == once[i] {
      if nodes[i].id == id {
        assert twice[i].data == once[i].data;
      }
    }
  }

  lemma UpdateNodesKeepsIds(nodes: seq<Node>, id: string, patch: Object)
    ensures NodeIds(UpdateNodes(nodes, id, patch)) == NodeIds(nodes)
  {
  }

  /** `updateNode` keeps a well-formed graph well-formed. */
  lemma UpdateNodesKeepsWellFormed(g: Graph, id: string, patch: Object)
    requires WellFormed(g)
    ensures WellFormed(g.(nodes := UpdateNodes(g.nodes, id, patch)))
  {
    UpdateNodesKeepsIds(g.nodes, id, patch);
  }

  /** `addNode` keeps a well-formed graph well-formed when the new id is not
      already in use (the code does not check this). */
  lemma {:induction false} AddNodeKeepsWellFormed(g: Graph, n: Node)
    requires WellFormed(g) && n.id !in NodeIds(g.nodes)
    ensures WellFormed(WithNodeAdded(g, n))
  {
    var r := WithNodeAdded(g, n);
    assert NodeIds(r.nodes) == NodeIds(g.nodes) + [n.id];
    forall i | 0 <= i < |r.edges|
      ensures NamesNode(r.nodes, r.edges[i].source) && NamesNode(r.nodes, r.edges[i].target)
    {
      assert NamesNode(g.nodes, g.edges[i].source);
      assert NamesNode(g.nodes, g.edges[i].target);
    }
  }

  /** A node update patches each node on its own. */
  lemma {:induction false} UpdateNodesPointwise(nodes: seq<Node>, id: string, patch: Object, i: nat)
    requires i < |nodes|
    ensures UpdateNodes(nodes, id, patch)[i] == PatchNode(nodes[i], id, patch)
  {
    if i > 0 {
      UpdateNodesPointwise(nodes[1..], id, patch, i - 1);
    }
  }

  /** The walk-through of a new trigger being renamed: the rename changes
      `name` and keeps the default `triggerType` and `config`. */
  lemma RenameKeepsTriggerDefaults(nodes: seq<Node>, position: Position, suffix: string)
    requires IsNanoidSuffix(suffix) && NodeId(Trigger, suffix) !in NodeIds(nodes)
    ensures
      var n := NewNode(Trigger, position, suffix);
      var after := UpdateNodes(nodes + [n], n.id, map["name" := Str("Start")]);
      && |after| == |nodes| + 1
      && after[..|nodes|] == nodes
      && after[|nodes|].data == map["name" := Str("Start"), "triggerType" := Str("webhook"), "config" := Obj(map[])]
  {
    var n := NewNode(Trigger, position, suffix);
    var patch := map["name" := Str("Start")];
    var all := nodes + [n];
    var after := UpdateNodes(all, n.id, patch);
    forall i | 0 <= i < |nodes| ensures after[i] == nodes[i] {
      assert NodeIds(nodes)[i] == nodes[i].id;
      UpdateNodesPointwise(all, n.id, patch, i);
    }
    UpdateNodesPointwise(all, n.id, patch, |nodes|);
    assert n.data + patch == map["name" := Str("Start"), "triggerType" := Str("webhook"), "config" := Obj(map[])];
  }

  // ---------------------------------------------------------------------
  // Workflow-record builders

  /** `{ ...row, data: row.data || { nodes: [], edges: [] } }` (62-65, 131). */
  function Normalize(row: StoredWorkflow): (w: Workflow)
    ensures w.id == row.id && w.name == row.name && w.description == row.description
    ensures w.created_at == row.created_at && w.updated_at == row.updated_at
    ensures row.data.Some? ==> w.data == row.data.value
    ensures row.data.None? ==> w.data == EmptyGraph
  {
    Workflow(row.id, row.name, row.description,
             match row.data case Some(g) => g case None => EmptyGraph,
             row.created_at, row.updated_at)
  }

  /** `rows?.map(normalize) || []` */
  function NormalizeAll(rows: Option<seq<StoredWorkflow>>): (ws: seq<Workflow>)
    ensures rows.None? ==> ws == []
    ensures rows.Some? ==> |ws| == |rows.value|
    ensures rows.Some? ==> forall i :: 0 <= i < |ws| ==> ws[i] == Normalize(rows.value[i])
  {
    match rows
    case None => []
    case Some(rs) => Map(rs, Normalize)
  }

  /** The row storage holds for a record. */
  function Stored(w: Workflow): StoredWorkflow
  {
    StoredWorkflow(w.id, w.name, w.description, Some(w.data), w.created_at, w.updated_at)
  }

  /** A record saved and read back is the same record, graph order and all. */
  lemma NormalizeRoundTrip(w: Workflow)
    ensures Normalize(Stored(w)) == w
  {
  }

  /** `{ ...wf, ...patch }` */
  function MergeWorkflow(wf: Workflow, p: WorkflowPatch): (r: Workflow)
    ensures r.id == (if p.id.Some? then p.id.value else wf.id)
    ensures r.name == (if p.name.Some? then p.name.value else wf.name)
    ensures r.description == (if p.description.Some? then p.description.value else wf.description)
    ensures r.data == (if p.data.Some? then p.data.value else wf.data)
    ensures r.created_at == (if p.created_at.Some? then p.created_at.value else wf.created_at)
    ensures r.updated_at == (if p.updated_at.Some? then p.updated_at.value else wf.updated_at)
  {
    Workflow(
      match p.id case Some(v) => v case None => wf.id,
      match p.name case Some(v) => v case None => wf.name,
      match p.description case Some(v) => v case None => wf.description,
      match p.data case Some(v) => v case None => wf.data,
      match p.created_at case Some(v) => v case None => wf.created_at,
      match p.updated_at case Some(v) => v case None => wf.updated_at)
  }

  /** `{ ...updates, data: current.data }` (150-153). */
  function UpdateRequest(updates: WorkflowPatch, current: Workflow): (r: WorkflowPatch)
    ensures r.data == Some(current.data)
    ensures r.id == updates.id && r.name == updates.name && r.description == updates.description
    ensures r.created_at == updates.created_at && r.updated_at == updates.updated_at
  {
    updates.(data := Some(current.data))
  }

  /** Whatever `updates` says about `data`, a record merged with the request
      carries the open workflow's graph. */
  lemma UpdateRequestCarriesCurrentGraph(updates: WorkflowPatch, current: Workflow, wf: Workflow)
    ensures MergeWorkflow(wf, UpdateRequest(updates, current)).data == current.data
  {
  }

  /** The list after `updateWorkflow` (163-165). */
  function MergeMatching(wfs: seq<Workflow>, id: string, p: WorkflowPatch): (r: seq<Workflow>)
    ensures |r| == |wfs|
    ensures forall i :: 0 <= i < |wfs| ==>
      r[i] == (if wfs[i].id == id then MergeWorkflow(wfs[i], p) else wfs[i])
  {
    if wfs == [] then []
    else [if wfs[0].id == id then MergeWorkflow(wfs[0], p) else wfs[0]] + MergeMatching(wfs[1..], id, p)
  }

  predicate KeepsWorkflow(id: string, wf: Workflow)
  {
    wf.id != id
  }

  /** The list after `deleteWorkflow` (189). */
  function RemoveWorkflow(wfs: seq<Workflow>, id: string): (r: seq<Workflow>)
    ensures forall i :: 0 <= i < |r| ==> r[i].id != id
  {
    Filter(wfs, (wf: Workflow) => KeepsWorkflow(id, wf))
  }

  /** Deletion removes exactly the entries with the id and keeps the order of
      the rest. */
  lemma RemoveWorkflowExactly(wfs: seq<Workflow>, id: string, wf: Workflow)
    ensures wf in RemoveWorkflow(wfs, id) <==> wf in wfs && wf.id != id
    ensures IsSubsequence(RemoveWorkflow(wfs, id), wfs)
    ensures multiset(RemoveWorkflow(wfs, id))[wf] == if wf.id != id then multiset(wfs)[wf] else 0
  {
    FilterMultiplicity(wfs, (w: Workflow) => KeepsWorkflow(id, w), wf);
    FilterMembership(wfs, (w: Workflow) => KeepsWorkflow(id, w), wf);
    FilterIsSubsequence(wfs, (w: Workflow) => KeepsWorkflow(id, w));
  }

  /** `state.currentWorkflow?.id === id ? null : state.currentWorkflow` (190). */
  function ClearIfDeleted(current: Option<Workflow>, id: string): (r: Option<Workflow>)
    ensures r.None? <==> current.None? || current.value.id == id
    ensures r.Some? ==> r == current
  {
    if current.Some? && current.value.id == id then None else current
  }

  // ---------------------------------------------------------------------
  // The store

  class Store {
    var workflows: seq<Workflow>
    var currentWorkflow: Option<Workflow>
    var isLoading: bool
    var error: Option<string>

    constructor ()
      ensures workflows == [] && currentWorkflow == None && !isLoading && error == None
    {
      workflows := [];
      currentWorkflow := None;
      isLoading := false;
      error := None;
    }

    /** `fetchWorkflows`: `listAll` is the reply of the select ordered by
        `created_at` descending. */
    method FetchWorkflows(listAll: Reply<Option<seq<StoredWorkflow>>>) returns (r: Outcome<()>)
      modifies this
      ensures !isLoading && currentWorkflow == old(currentWorkflow)
      ensures listAll.Done? ==>
        r == Resolved(()) && error == None && workflows == NormalizeAll(listAll.data)
      ensures listAll.Failed? ==>
        && r == Rejected(listAll.failure)
        && error == Some(MessageOf(listAll.failure, "Failed to fetch workflows"))
        && workflows == old(workflows)
    {
      isLoading, error := true, None;
      match listAll {
        case Failed(f) =>
          error := Some(MessageOf(f, "Failed to fetch workflows"));
          r := Rejected(f);
        case Done(rows) =>
          workflows := NormalizeAll(rows);
          r := Resolved(());
      }
      isLoading := false;
    }

    /** `createWorkflow(name)`: `getUser` is the reply of `auth.getUser()`,
        `Done(true)` when it found a user; `insert` maps the inserted row to
        the reply of the insert. */
    method CreateWorkflow(name: string, getUser: Reply<bool>, insert: NewWorkflowRow -> Reply<Option<Workflow>>)
      returns (r: Outcome<string>)
      modifies this
      ensures !isLoading
      ensures getUser.Failed? ==>
        && r == Rejected(getUser.failure) && error == Some(MessageOf(getUser.failure, "Failed to create workflow"))
        && workflows == old(workflows) && currentWorkflow == old(currentWorkflow)
      ensures getUser == Done(false) ==>
        && r == Rejected(ErrorOf("Not authenticated")) && error == Some("Not authenticated")
        && workflows == old(workflows) && currentWorkflow == old(currentWorkflow)
      ensures getUser == Done(true) ==>
        match insert(NewWorkflowRow(name, "", EmptyGraph))
        case Failed(f) =>
          && r == Rejected(f) && error == Some(MessageOf(f, "Failed to create workflow"))
          && workflows == old(workflows) && currentWorkflow == old(currentWorkflow)
        case Done(None) =>
          && r == Rejected(ErrorOf("Failed to create workflow")) && error == Some("Failed to create workflow")
          && workflows == old(workflows) && currentWorkflow == old(currentWorkflow)
        case Done(Some(row)) =>
          && r == Resolved(row.id) && error == None
          && workflows == [row] + old(workflows) && currentWorkflow == Some(row)
    {
      isLoading, error := true, None;
      match getUser {
        case Failed(f) =>
          error := Some(MessageOf(f, "Failed to create workflow"));
          r := Rejected(f);
        case Done(false) =>
          var f := ErrorOf("Not authenticated");
          error := Some(MessageOf(f, "Failed to create workflow"));
          r := Rejected(f);
        case Done(true) =>
          var reply := insert(NewWorkflowRow(name, "", EmptyGraph));
          match reply {
            case Failed(f) =>
              error := Some(MessageOf(f, "Failed to create workflow"));
              r := Rejected(f);
            case Done(None) =>
              var f := ErrorOf("Failed to create workflow");
              error := Some(MessageOf(f, "Failed to create workflow"));
              r := Rejected(f);
            case Done(Some(row)) =>
              workflows := [row] + workflows;
              currentWorkflow := Some(row);
              r := Resolved(row.id);
          }
      }
      isLoading := false;
    }

    /** `loadWorkflow(id)`: `fetchById` maps an id to the reply of the
        single-row select. */
    method LoadWorkflow(id: string, fetchById: string -> Reply<Option<StoredWorkflow>>) returns (r: Outcome<()>)
      modifies this
      ensures !isLoading && workflows == old(workflows)
      ensures
        match fetchById(id)
        case Failed(f) =>
          r == Rejected(f) && error == Some(MessageOf(f, "Failed to load workflow"))
          && currentWorkflow == old(currentWorkflow)
        case Done(None) =>
          r == Rejected(ErrorOf("Workflow not found")) && error == Some("Workflow not found")
          && currentWorkflow == old(currentWorkflow)
        case Done(Some(row)) =>
          r == Resolved(()) && error == None && currentWorkflow == Some(Normalize(row))
    {
      isLoading, error := true, None;
      match fetchById(id) {
        case Failed(f) =>
          error := Some(MessageOf(f, "Failed to load workflow"));
          r := Rejected(f);
        case Done(None) =>
          var f := ErrorOf("Workflow not found");
          error := Some(MessageOf(f, "Failed to load workflow"));
          r := Rejected(f);
        case Done(Some(row)) =>
          currentWorkflow := Some(Normalize(row));
          r := Resolved(());
      }
      isLoading := false;
    }

    /** `updateWorkflow(id, updates)`: `update` maps the id and the fields
        sent to the reply's error, if any. */
    method UpdateWorkflow(id: string, updates: WorkflowPatch, update: (string, WorkflowPatch) -> Option<Failure>)
      returns (r: Outcome<()>)
      modifies this
      ensures !isLoading
      ensures old(currentWorkflow).None? ==>
        && r == Rejected(ErrorOf("No workflow selected")) && error == Some("No workflow selected")
        && workflows == old(workflows) && currentWorkflow == old(currentWorkflow)
      ensures old(currentWorkflow).Some? ==>
        var sent := UpdateRequest(updates, old(currentWorkflow).value);
        match update(id, sent)
        case Some(f) =>
          && r == Rejected(f) && error == Some(MessageOf(f, "Failed to update workflow"))
          && workflows == old(workflows) && currentWorkflow == old(currentWorkflow)
        case None =>
          && r == Resolved(()) && error == None
          && workflows == MergeMatching(old(workflows), id, sent)
          && currentWorkflow == Some(MergeWorkflow(old(currentWorkflow).value, sent))
    {
      isLoading, error := true, None;
      var current := currentWorkflow;
      if current.None? {
        var f := ErrorOf("No workflow selected");
        error := Some(MessageOf(f, "Failed to update workflow"));
        r := Rejected(f);
      } else {
        var sent := UpdateRequest(updates, current.value);
        match update(id, sent) {
          case Some(f) =>
            error := Some(MessageOf(f, "Failed to update workflow"));
            r := Rejected(f);
          case None =>
            workflows := MergeMatching(workflows, id, sent);
            currentWorkflow := Some(MergeWorkflow(current.value, sent));
            r := Resolved(());
        }
      }
      isLoading := false;
    }

    /** `deleteWorkflow(id)`: `deleteById` maps the id to the reply's error, if any. */
    method DeleteWorkflow(id: string, deleteById: string -> Option<Failure>) returns (r: Outcome<()>)
      modifies this
      ensures !isLoading
      ensures
        match deleteById(id)
        case Some(f) =>
          && r == Rejected(f) && error == Some(MessageOf(f, "Failed to delete workflow"))
          && workflows == old(workflows) && currentWorkflow == old(currentWorkflow)
        case None =>
          && r == Resolved(()) && error == None
          && workflows == RemoveWorkflow(old(workflows), id)
          && currentWorkflow == ClearIfDeleted(old(currentWorkflow), id)
    {
      isLoading, error := true, None;
      match deleteById(id) {
        case Some(f) =>
          error := Some(MessageOf(f, "Failed to delete workflow"));
          r := Rejected(f);
        case None =>
          workflows := RemoveWorkflow(workflows, id);
          currentWorkflow := ClearIfDeleted(currentWorkflow, id);
          r := Resolved(());
      }
      isLoading := false;
    }

    /** `addNode(type, position)` (`nodeType` is `type`): `suffix` stands for `nanoid(6)`; `save`
        maps the workflow id and the graph sent to the reply's error, if any.
        This action neither resets `error` nor touches `isLoading`. */
    method AddNode(nodeType: NodeType, position: Position, suffix: string, save: (string, Graph) -> Option<Failure>)
      returns (r: Outcome<()>)
      requires IsNanoidSuffix(suffix)
      modifies this`currentWorkflow, this`error
      ensures old(currentWorkflow).None? ==>
        && r == Rejected(ErrorOf("No workflow selected")) && error == Some("No workflow selected")
        && currentWorkflow == old(currentWorkflow)
      ensures old(currentWorkflow).Some? ==>
        var w := old(currentWorkflow).value;
        var g := WithNodeAdded(w.data, NewNode(nodeType, position, suffix));
        match save(w.id, g)
        case Some(f) =>
          r == Rejected(f) && error == Some(MessageOf(f, "Failed to add node"))
          && currentWorkflow == old(currentWorkflow)
        case None =>
          r == Resolved(()) && error == old(error) && currentWorkflow == Some(w.(data := g))
    {
      var current := currentWorkflow;
      if current.None? {
        var f := ErrorOf("No workflow selected");
        error := Some(MessageOf(f, "Failed to add node"));
        r := Rejected(f);
      } else {
        var w := current.value;
        var g := WithNodeAdded(w.data, NewNode(nodeType, position, suffix));
        match save(w.id, g) {
          case Some(f) =>
            error := Some(MessageOf(f, "Failed to add node"));
            r := Rejected(f);
          case None =>
            currentWorkflow := Some(w.(data := g));
            r := Resolved(());
        }
      }
    }

    /** `updateNode(id, patch)`: `save` as for `AddNode`. */
    method UpdateNode(id: string, patch: Object, save: (string, Graph) -> Option<Failure>)
      returns (r: Outcome<()>)
      modifies this`currentWorkflow, this`error
      ensures old(currentWorkflow).None? ==>
        && r == Rejected(ErrorOf("No workflow selected")) && error == Some("No workflow selected")
        && currentWorkflow == old(currentWorkflow)
      ensures old(currentWorkflow).Some? ==>
        var w := old(currentWorkflow).value;
        var g := w.data.(nodes := UpdateNodes(w.data.nodes, id, patch));
        match save(w.id, g)
        case Some(f) =>
          r == Rejected(f) && error == Some(MessageOf(f, "Failed to update node"))
          && currentWorkflow == old(currentWorkflow)
        case None =>
          r == Resolved(()) && error == old(error) && currentWorkflow == Some(w.(data := g))
    {
      var current := currentWorkflow;
      if current.None? {
        var f := ErrorOf("No workflow selected");
        error := Some(MessageOf(f, "Failed to update node"));
        r := Rejected(f);
      } else {
        var w := current.value;
        var g := w.data.(nodes := UpdateNodes(w.data.nodes, id, patch));
        match save(w.id, g) {
          case Some(f) =>
            error := Some(MessageOf(f, "Failed to update node"));
            r := Rejected(f);
          case None =>
            currentWorkflow := Some(w.(data := g));
            r := Resolved(());
        }
      }
    }

    /** `onNodesChange(changes)`: `applyNodeChanges` is the canvas library's
        reducer, taken as given. Nothing is persisted. */
    method OnNodesChange<C>(changes: C, applyNodeChanges: (C, seq<Node>) -> seq<Node>)
      modifies this`currentWorkflow
      ensures old(currentWorkflow).None? ==> currentWorkflow == old(currentWorkflow)
      ensures old(currentWorkflow).Some? ==>
        var w := old(currentWorkflow).value;
        currentWorkflow == Some(w.(data := w.data.(nodes := applyNodeChanges(changes, w.data.nodes))))
    {
      if currentWorkflow.Some? {
        var w := currentWorkflow.value;
        currentWorkflow := Some(w.(data := w.data.(nodes := applyNodeChanges(changes, w.data.nodes))));
      }
    }

    /** `connectNodes(connection)`: `suffix` stands for `nanoid(6)`,
        `addEdge` is the canvas library's insertion, `save` as for `AddNode`.
        No connection is rejected. */
    method ConnectNodes(connection: Connection, suffix: string, addEdge: (Edge, seq<Edge>) -> seq<Edge>,
                        save: (string, Graph) -> Option<Failure>)
      returns (r: Outcome<()>)
      modifies this`currentWorkflow, this`error
      ensures old(currentWorkflow).None? ==>
        && r == Rejected(ErrorOf("No workflow selected")) && error == Some("No workflow selected")
        && currentWorkflow == old(currentWorkflow)
      ensures old(currentWorkflow).Some? ==>
        var w := old(currentWorkflow).value;
        var g := w.data.(edges := addEdge(NewEdge(connection, suffix), w.data.edges));
        && g.nodes == w.data.nodes
        && match save(w.id, g)
           case Some(f) =>
             r == Rejected(f) && error == Some(MessageOf(f, "Failed to connect nodes"))
             && currentWorkflow == old(currentWorkflow)
           case None =>
             r == Resolved(()) && error == old(error) && currentWorkflow == Some(w.(data := g))
    {
      var current := currentWorkflow;
      if current.None? {
        var f := ErrorOf("No workflow selected");
        error := Some(MessageOf(f, "Failed to connect nodes"));
        r := Rejected(f);
      } else {
        var w := current.value;
        var g := w.data.(edges := addEdge(NewEdge(connection, suffix), w.data.edges));
        match save(w.id, g) {
          case Some(f) =>
            error := Some(MessageOf(f, "Failed to connect nodes"));
            r := Rejected(f);
          case None =>
            currentWorkflow := Some(w.(data := g));
            r := Resolved(());
        }
      }
    }

    /** `onEdgesChange(changes)`: `applyEdgeChanges` is the canvas library's
        reducer, taken as given. Nothing is persisted. */
    method OnEdgesChange<C>(changes: C, applyEdgeChanges: (C, seq<Edge>) -> seq<Edge>)
      modifies this`currentWorkflow
      ensures old(currentWorkflow).None? ==> currentWorkflow == old(currentWorkflow)
      ensures old(currentWorkflow).Some? ==>
        var w := old(currentWorkflow).value;
        currentWorkflow == Some(w.(data := w.data.(edges := applyEdgeChanges(changes, w.data.edges))))
    {
      if currentWorkflow.Some? {
        var w := currentWorkflow.value;
        currentWorkflow := Some(w.(data := w.data.(edges := applyEdgeChanges(changes, w.data.edges))));
      }
    }
  }
}
