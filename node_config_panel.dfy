/** The node configuration panel: an edit buffer for one node. Opening the
    panel on a node fills the buffer with that node's name and a per-kind
    copy of its settings with defaults; single-key edits change the buffer;
    saving hands `updateNode` a patch built from the node's data and the
    buffer. */
module NodeConfigPanel {
  import opened Common
  import opened JsValues
  import opened Seqs
  import opened WorkflowTypes

  /** `nodeId` is `string | null`; the panel tests it for truthiness. */
  predicate IdGiven(nodeId: Option<string>)
  {
    nodeId.Some? && nodeId.value != ""
  }

  predicate HasNodeId(id: string, n: Node)
  {
    n.id == id
  }

  /** The node the effect finds: none unless an id is given and a workflow
      is open; `nodes` is the list the effect searches, `None` when no
      workflow is open. */
  function Lookup(nodeId: Option<string>, nodes: Option<seq<Node>>): (r: Option<Node>)
    ensures r.Some? ==> IdGiven(nodeId) && nodes.Some? && r.value in nodes.value && r.value.id == nodeId.value
    ensures r.Some? ==> exists i :: 0 <= i < |nodes.value| && nodes.value[i] == r.value
                                    && (forall j :: 0 <= j < i ==> nodes.value[j].id != nodeId.value)
    ensures IdGiven(nodeId) && nodes.Some? && (exists i :: 0 <= i < |nodes.value| && nodes.value[i].id == nodeId.value)
            ==> r.Some?
  {
    if IdGiven(nodeId) && nodes.Some? then
      var p := (n: Node) => HasNodeId(nodeId.value, n);
      var k := FindIndex(nodes.value, p);
      if k.Some? then
        assert nodes.value[k.value].id == nodeId.value;
        Some(nodes.value[k.value])
      else
        None
    else
      None
  }

  /** The `condition` part of a condition node's buffer: each field read
      through `?.`, a falsy value replaced by its default. */
  function ConditionBuffer(c: Value): (r: Object)
    ensures r.Keys == {"left", "operator", "right"}
    ensures Truthy(OptionalGet(c, "left")) ==> r["left"] == OptionalGet(c, "left")
    ensures !Truthy(OptionalGet(c, "left")) ==> r["left"] == Str("")
    ensures Truthy(OptionalGet(c, "operator")) ==> r["operator"] == OptionalGet(c, "operator")
    ensures !Truthy(OptionalGet(c, "operator")) ==> r["operator"] == Str("equals")
    ensures Truthy(OptionalGet(c, "right")) ==> r["right"] == OptionalGet(c, "right")
    ensures !Truthy(OptionalGet(c, "right")) ==> r["right"] == Str("")
  {
    map["left" := Or(OptionalGet(c, "left"), Str("")),
        "operator" := Or(OptionalGet(c, "operator"), Str("equals")),
        "right" := Or(OptionalGet(c, "right"), Str(""))]
  }

  /** The buffer the effect builds for a found node, or `None` for a node of
      another type, for which the effect leaves the buffer as it was. */
  function InitialConfig(n: Node): (r: Option<Object>)
    ensures r.Some? <==> n.nodeType in {"trigger", "action", "condition"}
    ensures n.nodeType == "trigger" ==> r.Some? && r.value.Keys == {"triggerType", "config"}
    ensures n.nodeType == "trigger" && Truthy(Get(n.data, "triggerType")) ==>
      r.Some? && r.value["triggerType"] == Get(n.data, "triggerType")
    ensures n.nodeType == "trigger" && !Truthy(Get(n.data, "triggerType")) ==>
      r.Some? && r.value["triggerType"] == Str("webhook")
    ensures n.nodeType == "action" ==> r.Some? && r.value.Keys == {"actionType", "config"}
    ensures n.nodeType == "action" && Truthy(Get(n.data, "actionType")) ==>
      r.Some? && r.value["actionType"] == Get(n.data, "actionType")
    ensures n.nodeType == "action" && !Truthy(Get(n.data, "actionType")) ==>
      r.Some? && r.value["actionType"] == Str("http")
    ensures n.nodeType in {"trigger", "action"} ==>
      r.Some? && r.value["config"] == Obj(Spread(Get(n.data, "config")))
    ensures n.nodeType == "condition" ==>
      r.Some? && r.value == map["condition" := Obj(ConditionBuffer(Get(n.data, "condition")))]
  {
    var d := n.data;
    if n.nodeType == "trigger" then
      Some(map["triggerType" := Or(Get(d, "triggerType"), Str("webhook")),
               "config" := Obj(Spread(Get(d, "config")))])
    else if n.nodeType == "action" then
      Some(map["actionType" := Or(Get(d, "actionType"), Str("http")),
               "config" := Obj(Spread(Get(d, "config")))])
    else if n.nodeType == "condition" then
      Some(map["condition" := Obj(ConditionBuffer(Get(d, "condition")))])
    else
      None
  }

  /** A missing selector and a falsy one give the same buffer. */
  lemma MissingSelectorIsFalsySelector(n: Node, key: string)
    requires key in {"triggerType", "actionType"}
    requires !Truthy(Get(n.data, key))
    ensures InitialConfig(n) == InitialConfig(n.(data := n.data - {key}))
  {
    var m := n.(data := n.data - {key});
    assert Get(m.data, key) == Undefined;
    assert Get(m.data, "config") == Get(n.data, "config");
    assert key == "triggerType" ==> Get(m.data, "actionType") == Get(n.data, "actionType");
    assert key == "actionType" ==> Get(m.data, "triggerType") == Get(n.data, "triggerType");
  }

  /** `handleConfigChange(k, v)`: the buffer with key `k` of its `config`
      set to `v`. */
  function ConfigChanged(configData: Object, k: string, v: Value): (r: Object)
    ensures r.Keys == configData.Keys + {"config"}
    ensures forall key :: key in configData && key != "config" ==> r[key] == configData[key]
    ensures r["config"].Obj? && r["config"].fields.Keys == Spread(Get(configData, "config")).Keys + {k}
    ensures r["config"].fields[k] == v
    ensures forall key :: key in Spread(Get(configData, "config")) && key != k ==>
      r["config"].fields[key] == Spread(Get(configData, "config"))[key]
  {
    configData["config" := Obj(Spread(Get(configData, "config"))[k := v])]
  }

  /** `handleConditionChange(f, v)`: the buffer with field `f` of its
      `condition` set to `v`. */
  function ConditionChanged(configData: Object, f: string, v: string): (r: Object)
    ensures r.Keys == configData.Keys + {"condition"}
    ensures forall key :: key in configData && key != "condition" ==> r[key] == configData[key]
    ensures r["condition"].Obj? && r["condition"].fields.Keys == Spread(Get(configData, "condition")).Keys + {f}
    ensures r["condition"].fields[f] == Str(v)
    ensures forall key :: key in Spread(Get(configData, "condition")) && key != f ==>
      r["condition"].fields[key] == Spread(Get(configData, "condition"))[key]
  {
    configData["condition" := Obj(Spread(Get(configData, "condition"))[f := Str(v)])]
  }

  /** Two edits of the same config key: the second wins. */
  lemma ConfigChangedLastWins(configData: Object, k: string, v: Value, w: Value)
    ensures ConfigChanged(ConfigChanged(configData, k, v), k, w) == ConfigChanged(configData, k, w)
  {
    var once := ConfigChanged(configData, k, v);
    assert Spread(Get(once, "config")) == Spread(Get(configData, "config"))[k := v];
    assert Spread(Get(configData, "config"))[k := v][k := w] == Spread(Get(configData, "config"))[k := w];
  }

  /** Edits of two different config keys commute. */
  lemma ConfigChangedCommute(configData: Object, k1: string, v1: Value, k2: string, v2: Value)
    requires k1 != k2
    ensures ConfigChanged(ConfigChanged(configData, k1, v1), k2, v2)
         == ConfigChanged(ConfigChanged(configData, k2, v2), k1, v1)
  {
    var c := Spread(Get(configData, "config"));
    assert Spread(Get(ConfigChanged(configData, k1, v1), "config")) == c[k1 := v1];
    assert Spread(Get(ConfigChanged(configData, k2, v2), "config")) == c[k2 := v2];
    assert c[k1 := v1][k2 := v2] == c[k2 := v2][k1 := v1];
  }

  /** `{ ...node.data, name: nodeName, ...configData }`: the buffer's keys win
      over the name, which wins over the node's own data. */
  function SubmitPatch(data: Object, nodeName: Value, configData: Object): (r: Object)
    ensures r.Keys == data.Keys + {"name"} + configData.Keys
    ensures forall k :: k in configData ==> r[k] == configData[k]
    ensures "name" !in configData ==> r["name"] == nodeName
    ensures forall k :: k in data && k != "name" && k !in configData ==> r[k] == data[k]
  {
    data["name" := nodeName] + configData
  }

  /** Opening the panel on a node whose data has its kind's shape and
      saving without edits submits the node's own data. */
  lemma {:induction false} SaveWithoutEditsKeepsData(n: Node)
    requires n.nodeType in {"trigger", "action", "condition"}
    requires ConformsTo(n.nodeType, n.data)
    ensures InitialConfig(n).Some?
    ensures SubmitPatch(n.data, Get(n.data, "name"), InitialConfig(n).value) == n.data
  {
    var d := n.data;
    var cd := InitialConfig(n).value;
    var r := SubmitPatch(d, Get(d, "name"), cd);
    assert "name" in d;
    if n.nodeType == "trigger" || n.nodeType == "action" {
      var c := Get(d, "config");
      assert c.Obj?;
      assert Obj(Spread(c)) == c;
    } else {
      var c := Get(d, "condition");
      assert c.Obj? && c.fields.Keys == {"left", "operator", "right"};
      var b := ConditionBuffer(c);
      assert Truthy(c.fields["operator"]);
      assert b["left"] == c.fields["left"];
      assert b["operator"] == c.fields["operator"];
      assert b["right"] == c.fields["right"];
      assert b == c.fields;
    }
    assert forall k :: k in cd ==> k in d && cd[k] == d[k];
    assert r.Keys == d.Keys;
  }

  /** The call `handleSubmit` makes: `updateNode(nodeId, patch)`. */
  datatype NodeUpdate = NodeUpdate(nodeId: string, patch: Object)

  class Panel {
    var node: Option<Node>
    var nodeName: Value
    var configData: Object

    constructor ()
      ensures node == None && nodeName == Str("") && configData == map[]
    {
      node := None;
      nodeName := Str("");
      configData := map[];
    }

    /** The effect that runs when `nodeId` or the open workflow changes. */
    method Sync(nodeId: Option<string>, nodes: Option<seq<Node>>)
      modifies this
      ensures Lookup(nodeId, nodes).None? ==>
        node == old(node) && nodeName == old(nodeName) && configData == old(configData)
      ensures Lookup(nodeId, nodes).Some? ==>
        && node == Lookup(nodeId, nodes)
        && nodeName == Get(node.value.data, "name")
        && configData == (if InitialConfig(node.value).Some? then InitialConfig(node.value).value
                          else old(configData))
    {
      var found := Lookup(nodeId, nodes);
      if found.Some? {
        node := found;
        nodeName := Get(found.value.data, "name");
        var init := InitialConfig(found.value);
        if init.Some? {
          configData := init.value;
        }
      }
    }

    /** The name input. */
    method SetNodeName(name: string)
      modifies this`nodeName
      ensures nodeName == Str(name)
    {
      nodeName := Str(name);
    }

    /** The trigger-type and action-type selects: one top-level key of the
        buffer set to the chosen option. */
    method ChooseSelector(key: string, value: string)
      modifies this`configData
      ensures configData == old(configData)[key := Str(value)]
    {
      configData := configData[key := Str(value)];
    }

    method HandleConfigChange(k: string, v: Value)
      modifies this`configData
      ensures configData == ConfigChanged(old(configData), k, v)
    {
      configData := ConfigChanged(configData, k, v);
    }

    method HandleConditionChange(f: string, v: string)
      modifies this`configData
      ensures configData == ConditionChanged(old(configData), f, v)
    {
      configData := ConditionChanged(configData, f, v);
    }

    /** The form is rendered only while a node is loaded. Submitting without
        an id sends nothing; otherwise it sends the patch to `updateNode`. */
    method HandleSubmit(nodeId: Option<string>) returns (call: Option<NodeUpdate>)
      requires node.Some?
      ensures call.None? <==> !IdGiven(nodeId)
      ensures call.Some? ==> call.value.nodeId == nodeId.value
      ensures call.Some? ==> call.value.patch == SubmitPatch(node.value.data, nodeName, configData)
    {
      if !IdGiven(nodeId) {
        return None;
      }
      call := Some(NodeUpdate(nodeId.value, SubmitPatch(node.value.data, nodeName, configData)));
    }
  }
}
