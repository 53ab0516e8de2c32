/** The template gallery: three sample workflows, the category list drawn
    from them, and the search-and-category filter. */
module Templates {
  import opened Common
  import opened JsValues
  import opened Seqs
  import opened WorkflowTypes
  import Search

  /** A sample's `workflow`, in the shape the samples are written in: nodes
      and edges at the top level (the creation and update timestamps, taken
      from the clock, are left out). */
  datatype TemplateWorkflow = TemplateWorkflow(
    id: string,
    name: string,
    description: string,
    nodes: seq<Node>,
    edges: seq<Edge>)

  /** `Template`; its `createdAt` timestamp is left out. */
  datatype Template = Template(
    id: string,
    name: string,
    description: string,
    category: string,
    thumbnail: Option<string>,
    workflow: TemplateWorkflow)

  function GraphOf(t: Template): Graph
  {
    Graph(t.workflow.nodes, t.workflow.edges)
  }

  function DefaultEdge(id: string, source: string, target: string): Edge
  {
    Edge(id, Some(source), Some(target), None, None, Some("default"))
  }

  const ApiToDatabase: Template := Template(
    "template-1", "API to Database", "Fetch data from an API and store it in a database", "Data Integration",
    Some("https://images.pexels.com/photos/4050315/pexels-photo-4050315.jpeg?auto=compress&cs=tinysrgb&w=300"),
    TemplateWorkflow(
      "template-1-workflow", "API to Database", "Fetch data from an API and store it in a database",
      [Node("trigger-1", "trigger", Position(100.0, 100.0),
            map["name" := Str("Schedule Trigger"), "triggerType" := Str("schedule"),
                "config" := Obj(map["cron" := Str("0 * * * *")])]),
       Node("action-1", "action", Position(400.0, 100.0),
            map["name" := Str("Fetch API Data"), "actionType" := Str("http"),
                "config" := Obj(map["url" := Str("https://api.example.com/data"), "method" := Str("GET")])]),
       Node("action-2", "action", Position(700.0, 100.0),
            map["name" := Str("Store in Database"), "actionType" := Str("database"),
                "config" := Obj(map["operation" := Str("insert"), "table" := Str("api_data")])])],
      [DefaultEdge("edge-1", "trigger-1", "action-1"),
       DefaultEdge("edge-2", "action-1", "action-2")]))

  const FormSubmissionHandler: Template := Template(
    "template-2", "Form Submission Handler", "Handle form submissions and send email notifications", "Web",
    Some("https://images.pexels.com/photos/3861969/pexels-photo-3861969.jpeg?auto=compress&cs=tinysrgb&w=300"),
    TemplateWorkflow(
      "template-2-workflow", "Form Submission Handler", "Handle form submissions and send email notifications",
      [Node("trigger-1", "trigger", Position(100.0, 100.0),
            map["name" := Str("Webhook Trigger"), "triggerType" := Str("webhook"),
                "config" := Obj(map["path" := Str("/form-submit")])]),
       Node("condition-1", "condition", Position(400.0, 100.0),
            map["name" := Str("Validate Form"),
                "condition" := Obj(map["left" := Str("data.email"), "operator" := Str("contains"),
                                       "right" := Str("@")])]),
       Node("action-1", "action", Position(700.0, 0.0),
            map["name" := Str("Send Confirmation"), "actionType" := Str("email"),
                "config" := Obj(map["to" := Str("{{data.email}}"), "subject" := Str("Form Received")])]),
       Node("action-2", "action", Position(700.0, 200.0),
            map["name" := Str("Log Error"), "actionType" := Str("database"),
                "config" := Obj(map["operation" := Str("insert"), "table" := Str("form_errors")])])],
      [DefaultEdge("edge-1", "trigger-1", "condition-1"),
       DefaultEdge("edge-2", "condition-1", "action-1"),
       DefaultEdge("edge-3", "condition-1", "action-2")]))

  const NotificationSystem: Template := Template(
    "template-3", "Notification System", "Send notifications through multiple channels", "Communication",
    Some("https://images.pexels.com/photos/9622206/pexels-photo-9622206.jpeg?auto=compress&cs=tinysrgb&w=300"),
    TemplateWorkflow(
      "template-3-workflow", "Notification System", "Send notifications through multiple channels",
      [Node("trigger-1", "trigger", Position(100.0, 100.0),
            map["name" := Str("Event Trigger"), "triggerType" := Str("event"),
                "config" := Obj(map["eventName" := Str("notification.send")])]),
       Node("action-1", "action", Position(400.0, 0.0),
            map["name" := Str("Send Email"), "actionType" := Str("email"),
                "config" := Obj(map["to" := Str("{{data.email}}"), "subject" := Str("{{data.subject}}")])]),
       Node("action-2", "action", Position(400.0, 100.0),
            map["name" := Str("Send SMS"), "actionType" := Str("http"),
                "config" := Obj(map["url" := Str("https://api.twilio.com/sms"), "method" := Str("POST")])])],
      [DefaultEdge("edge-1", "trigger-1", "action-1"),
       DefaultEdge("edge-2", "trigger-1", "action-2")]))

  /** `sampleTemplates` */
  const SampleTemplates: seq<Template> := [ApiToDatabase, FormSubmissionHandler, NotificationSystem]

  /** The three samples, in the gallery's order. */
  lemma SampleTemplatesAsWritten()
    ensures |SampleTemplates| == 3
    ensures SampleTemplates[0].id == "template-1" && SampleTemplates[0].name == "API to Database"
    ensures SampleTemplates[1].id == "template-2" && SampleTemplates[1].name == "Form Submission Handler"
    ensures SampleTemplates[2].id == "template-3" && SampleTemplates[2].name == "Notification System"
    ensures forall i :: 0 <= i < |SampleTemplates| ==> SampleTemplates[i].workflow.id == SampleTemplates[i].id + "-workflow"
    ensures forall i :: 0 <= i < |SampleTemplates| ==> SampleTemplates[i].thumbnail.Some?
  {
  }

  predicate NodesConform(nodes: seq<Node>)
  {
    forall i :: 0 <= i < |nodes| ==> ConformsTo(nodes[i].nodeType, nodes[i].data)
  }

  lemma ApiToDatabaseWellFormed()
    ensures WellFormed(GraphOf(ApiToDatabase))
  {
    assert NodeIds(ApiToDatabase.workflow.nodes) == ["trigger-1", "action-1", "action-2"];
  }

  lemma ApiToDatabaseNodesConform()
    ensures NodesConform(ApiToDatabase.workflow.nodes)
  {
  }

  lemma FormSubmissionHandlerWellFormed()
    ensures WellFormed(GraphOf(FormSubmissionHandler))
  {
    assert NodeIds(FormSubmissionHandler.workflow.nodes) == ["trigger-1", "condition-1", "action-1", "action-2"];
  }

  lemma FormSubmissionHandlerNodesConform()
    ensures NodesConform(FormSubmissionHandler.workflow.nodes)
  {
  }

  lemma NotificationSystemWellFormed()
    ensures WellFormed(GraphOf(NotificationSystem))
  {
    assert NodeIds(NotificationSystem.workflow.nodes) == ["trigger-1", "action-1", "action-2"];
  }

  lemma NotificationSystemNodesConform()
    ensures NodesConform(NotificationSystem.workflow.nodes)
  {
  }

  /** Each sample graph is well formed (unique node ids, every edge's ends
      name nodes of the same sample) and each node carries its kind's payload. */
  lemma SampleGraphsWellFormed()
    ensures forall i :: 0 <= i < |SampleTemplates| ==> WellFormed(GraphOf(SampleTemplates[i]))
    ensures forall i :: 0 <= i < |SampleTemplates| ==> NodesConform(SampleTemplates[i].workflow.nodes)
  {
    ApiToDatabaseWellFormed();
    ApiToDatabaseNodesConform();
    FormSubmissionHandlerWellFormed();
    FormSubmissionHandlerNodesConform();
    NotificationSystemWellFormed();
    NotificationSystemNodesConform();
  }

  function CategoryOf(t: Template): string
  {
    t.category
  }

  /** The category buttons. */
  function Categories(templates: seq<Template>): seq<string>
  {
    Search.Categories(templates, CategoryOf)
  }

  /** The gallery's category buttons. */
  lemma SampleCategories()
    ensures Categories(SampleTemplates) == ["Data Integration", "Web", "Communication"]
  {
    var cats := Map(SampleTemplates, CategoryOf);
    assert cats == ["Data Integration", "Web", "Communication"];
    DistinctOfUnique(cats);
  }

  predicate Keeps(term: string, selected: Option<string>, t: Template)
  {
    Search.Matches(t.name, t.description, t.category, term, selected)
  }

  /** `filteredTemplates` */
  function FilteredTemplates(templates: seq<Template>, term: string, selected: Option<string>): (r: seq<Template>)
    ensures |r| <= |templates|
    ensures forall i :: 0 <= i < |r| ==> Keeps(term, selected, r[i])
  {
    Filter(templates, (t: Template) => Keeps(term, selected, t))
  }

  /** A template is shown if and only if it is in the list and both the
      search and the category test pass. */
  lemma FilteredTemplatesExactly(templates: seq<Template>, term: string, selected: Option<string>, t: Template)
    ensures t in FilteredTemplates(templates, term, selected)
        <==> t in templates && Search.MatchesSearch(t.name, t.description, term)
                          && Search.MatchesCategory(t.category, selected)
    ensures multiset(FilteredTemplates(templates, term, selected))[t]
         == if Keeps(term, selected, t) then multiset(templates)[t] else 0
  {
    FilterMembership(templates, (t: Template) => Keeps(term, selected, t), t);
    FilterMultiplicity(templates, (t: Template) => Keeps(term, selected, t), t);
  }

  /** The shown templates keep the order of the list. */
  lemma FilteredTemplatesInOrder(templates: seq<Template>, term: string, selected: Option<string>)
    ensures IsSubsequence(FilteredTemplates(templates, term, selected), templates)
  {
    FilterIsSubsequence(templates, (t: Template) => Keeps(term, selected, t));
  }

  /** With an empty term and no category, every template is shown. */
  lemma EmptyFilterShowsAll(templates: seq<Template>)
    ensures FilteredTemplates(templates, "", None) == templates
  {
    forall i | 0 <= i < |templates|
      ensures Keeps("", None, templates[i])
    {
      Search.EmptySearchMatches(templates[i].name, templates[i].description, templates[i].category);
    }
    FilterKeepsAll(templates, (t: Template) => Keeps("", None, t));
  }
}
