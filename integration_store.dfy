/** The integration store: the list of integrations, with actions that set
    an entry's `connected` flag and a lookup by id. Nothing here is persisted. */
module IntegrationStore {
  import opened Common
  import opened Seqs
  import opened IntegrationTypes
  import JsValues

  function RequiredText(name: string, caption: string, placeholder: string): IntegrationField
  {
    IntegrationField(name, caption, Text, Some(true), Some(placeholder), None)
  }

  const Slack: Integration := Integration(
    "slack", "Slack", "Send and receive messages from Slack",
    "https://cdn.iconscout.com/icon/free/png-256/slack-2752072-2284889.png",
    OAuth, false, "Communication",
    [IntegrationAction("send_message", "Send Message", ActionAction, "Send a message to a Slack channel",
       Some([RequiredText("channel", "Channel", "#general"),
             RequiredText("message", "Message", "Enter your message")]))],
    [IntegrationAction("new_message", "New Message in Channel", TriggerAction,
       "Triggers when a new message is posted to a channel",
       Some([RequiredText("channel", "Channel", "#general")]))])

  const Airtable: Integration := Integration(
    "airtable", "Airtable", "Manage your Airtable bases",
    "https://cdn.iconscout.com/icon/free/png-256/airtable-1482122-1254387.png",
    ApiKey, false, "Database",
    [IntegrationAction("create_record", "Create Record", ActionAction, "Create a new record in an Airtable base",
       Some([RequiredText("base", "Base ID", "Enter base ID"),
             RequiredText("table", "Table Name", "Enter table name")])),
     IntegrationAction("update_record", "Update Record", ActionAction, "Update an existing record",
       Some([RequiredText("base", "Base ID", "Enter base ID"),
             RequiredText("table", "Table Name", "Enter table name"),
             RequiredText("record", "Record ID", "Enter record ID")]))],
    [])

  const Http: Integration := Integration(
    "http", "HTTP", "Make HTTP requests and handle webhooks",
    "https://cdn.iconscout.com/icon/free/png-256/api-134-1146082.png",
    NoAuth, true, "Development",
    [IntegrationAction("make_request", "Make Request", ActionAction, "Make an HTTP request to any URL",
       Some([RequiredText("url", "URL", "https://api.example.com"),
             IntegrationField("method", "Method", Select, Some(true), None,
               Some([FieldOption("GET", "GET"), FieldOption("POST", "POST"),
                     FieldOption("PUT", "PUT"), FieldOption("DELETE", "DELETE")]))]))],
    [IntegrationAction("webhook", "Webhook", TriggerAction, "Listen for incoming webhook requests",
       Some([RequiredText("path", "Path", "/webhook")]))])

  /** `defaultIntegrations` */
  const DefaultIntegrations: seq<Integration> := [Slack, Airtable, Http]

  function IdOf(i: Integration): string
  {
    i.id
  }

  /** The initial list: `slack`, `airtable`, `http`, of which only `http` is connected. */
  lemma DefaultIntegrationsInitially()
    ensures Map(DefaultIntegrations, IdOf) == ["slack", "airtable", "http"]
    ensures forall i :: 0 <= i < |DefaultIntegrations| ==>
      (DefaultIntegrations[i].connected <==> DefaultIntegrations[i].id == "http")
    ensures DefaultIntegrations[0].authType == OAuth && DefaultIntegrations[1].authType == ApiKey
         && DefaultIntegrations[2].authType == NoAuth
    ensures |DefaultIntegrations[0].triggers| == 1 && |DefaultIntegrations[1].triggers| == 0
         && |DefaultIntegrations[2].triggers| == 1
    ensures |DefaultIntegrations[0].actions| == 1 && |DefaultIntegrations[1].actions| == 2
         && |DefaultIntegrations[2].actions| == 1
  {
  }

  /** `integrations.map(i => i.id === id ? { ...i, connected } : i)` */
  function SetConnected(integrations: seq<Integration>, id: string, connected: bool): (r: seq<Integration>)
    ensures |r| == |integrations|
    ensures forall i :: 0 <= i < |r| && integrations[i].id != id ==> r[i] == integrations[i]
    ensures forall i :: 0 <= i < |r| && integrations[i].id == id ==>
      r[i] == integrations[i].(connected := connected)
  {
    if integrations == [] then []
    else
      [if integrations[0].id == id then integrations[0].(connected := connected) else integrations[0]]
      + SetConnected(integrations[1..], id, connected)
  }

  /** The last flag written wins: connecting then disconnecting is disconnecting. */
  lemma SetConnectedLastWins(integrations: seq<Integration>, id: string, a: bool, b: bool)
    ensures SetConnected(SetConnected(integrations, id, a), id, b) == SetConnected(integrations, id, b)
  {
    var once := SetConnected(integrations, id, a);
    var twice := SetConnected(once, id, b);
    assert forall i :: 0 <= i < |integrations| ==> twice[i] == SetConnected(integrations, id, b)[i];
  }

  predicate HasId(id: string, i: Integration)
  {
    i.id == id
  }

  /** `integrations.find(i => i.id === id)` */
  function FindById(integrations: seq<Integration>, id: string): (r: Option<Integration>)
    ensures r.None? <==> forall i :: 0 <= i < |integrations| ==> integrations[i].id != id
    ensures r.Some? ==> r.value.id == id
    ensures r.Some? ==> exists i :: 0 <= i < |integrations| && integrations[i] == r.value
                                    && (forall j :: 0 <= j < i ==> integrations[j].id != id)
  {
    var p := (i: Integration) => HasId(id, i);
    var k := FindIndex(integrations, p);
    assert k.Some? ==> integrations[k.value].id == id;
    Find(integrations, p)
  }

  lemma {:induction false} FindIndexSetConnected(integrations: seq<Integration>, id: string, flag: bool)
    ensures FindIndex(SetConnected(integrations, id, flag), (i: Integration) => HasId(id, i))
         == FindIndex(integrations, (i: Integration) => HasId(id, i))
  {
    if integrations != [] {
      FindIndexSetConnected(integrations[1..], id, flag);
      assert SetConnected(integrations, id, flag)[1..] == SetConnected(integrations[1..], id, flag);
    }
  }

  /** After a connect or disconnect, a lookup of that id finds the same entry
      with the new flag. */
  lemma FindAfterSetConnected(integrations: seq<Integration>, id: string, flag: bool)
    ensures FindById(SetConnected(integrations, id, flag), id)
         == match FindById(integrations, id)
            case None => None
            case Some(x) => Some(x.(connected := flag))
  {
    FindIndexSetConnected(integrations, id, flag);
  }

  class Store {
    var integrations: seq<Integration>

    constructor ()
      ensures integrations == DefaultIntegrations
    {
      integrations := DefaultIntegrations;
    }

    /** `connectIntegration(id, credentials)`: the credentials are not used. */
    method ConnectIntegration(id: string, credentials: JsValues.Value)
      modifies this
      ensures integrations == SetConnected(old(integrations), id, true)
    {
      integrations := SetConnected(integrations, id, true);
    }

    /** `disconnectIntegration(id)` */
    method DisconnectIntegration(id: string)
      modifies this
      ensures integrations == SetConnected(old(integrations), id, false)
    {
      integrations := SetConnected(integrations, id, false);
    }

    /** `getIntegration(id)` */
    method GetIntegration(id: string) returns (r: Option<Integration>)
      ensures r == FindById(integrations, id)
      ensures r.Some? ==> r.value.id == id && r.value in integrations
      ensures r.None? <==> forall i :: 0 <= i < |integrations| ==> integrations[i].id != id
    {
      r := FindById(integrations, id);
    }
  }
}
