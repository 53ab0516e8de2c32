/** The tool picker: the integrations offered for a new node, filtered by
    search and category, each with the triggers or actions that suit the
    node's kind. */
module ToolPicker {
  import opened Common
  import opened Seqs
  import opened WorkflowTypes
  import opened IntegrationTypes
  import IntegrationStore
  import Search

  function CategoryOf(i: Integration): string
  {
    i.category
  }

  /** The category buttons. */
  function Categories(integrations: seq<Integration>): seq<string>
  {
    Search.Categories(integrations, CategoryOf)
  }

  /** The picker's category buttons for the initial integrations. */
  lemma DefaultCategories()
    ensures Categories(IntegrationStore.DefaultIntegrations) == ["Communication", "Database", "Development"]
  {
    var cats := Map(IntegrationStore.DefaultIntegrations, CategoryOf);
    assert cats == ["Communication", "Database", "Development"];
    DistinctOfUnique(cats);
  }

  predicate Keeps(term: string, selected: Option<string>, i: Integration)
  {
    Search.Matches(i.name, i.description, i.category, term, selected)
  }

  /** `filteredIntegrations` */
  function FilteredIntegrations(integrations: seq<Integration>, term: string, selected: Option<string>)
    : (r: seq<Integration>)
    ensures |r| <= |integrations|
    ensures forall k :: 0 <= k < |r| ==> Keeps(term, selected, r[k])
  {
    Filter(integrations, (i: Integration) => Keeps(term, selected, i))
  }

  /** An integration passes the filter if and only if it is in the list and
      both the search and the category test pass. */
  lemma FilteredIntegrationsExactly(integrations: seq<Integration>, term: string, selected: Option<string>,
                                    i: Integration)
    ensures i in FilteredIntegrations(integrations, term, selected)
        <==> i in integrations && Search.MatchesSearch(i.name, i.description, term)
                              && Search.MatchesCategory(i.category, selected)
    ensures multiset(FilteredIntegrations(integrations, term, selected))[i]
         == if Keeps(term, selected, i) then multiset(integrations)[i] else 0
  {
    FilterMembership(integrations, (i: Integration) => Keeps(term, selected, i), i);
    FilterMultiplicity(integrations, (i: Integration) => Keeps(term, selected, i), i);
  }

  /** `getRelevantActions(integration)` */
  function RelevantActions(i: Integration, nodeType: NodeType): (r: seq<IntegrationAction>)
    ensures nodeType == Trigger ==> r == i.triggers
    ensures nodeType == Action ==> r == i.actions
    ensures nodeType == Condition ==> r == []
  {
    if nodeType == Trigger then i.triggers
    else if nodeType == Action then i.actions
    else []
  }

  predicate Offers(nodeType: NodeType, i: Integration)
  {
    |RelevantActions(i, nodeType)| > 0
  }

  /** The cards the picker renders: filtered integrations that have at least
      one relevant trigger or action. */
  function ShownIntegrations(integrations: seq<Integration>, term: string, selected: Option<string>,
                             nodeType: NodeType): (r: seq<Integration>)
    ensures |r| <= |integrations|
    ensures forall k :: 0 <= k < |r| ==> Offers(nodeType, r[k])
  {
    Filter(FilteredIntegrations(integrations, term, selected), (i: Integration) => Offers(nodeType, i))
  }

  /** A card is shown if and only if its integration passes the filter and
      offers something for the node's kind. */
  lemma ShownIntegrationsExactly(integrations: seq<Integration>, term: string, selected: Option<string>,
                                 nodeType: NodeType, i: Integration)
    ensures i in ShownIntegrations(integrations, term, selected, nodeType)
        <==> i in integrations && Keeps(term, selected, i) && |RelevantActions(i, nodeType)| > 0
  {
    FilterMembership(FilteredIntegrations(integrations, term, selected), (i: Integration) => Offers(nodeType, i), i);
    FilteredIntegrationsExactly(integrations, term, selected, i);
  }

  /** A condition node is offered no integration at all. */
  lemma ConditionShowsNothing(integrations: seq<Integration>, term: string, selected: Option<string>)
    ensures ShownIntegrations(integrations, term, selected, Condition) == []
  {
    FilterDropsAll(FilteredIntegrations(integrations, term, selected), (i: Integration) => Offers(Condition, i));
  }

  /** With an empty term and no category, every integration passes the filter. */
  lemma EmptyFilterKeepsAll(integrations: seq<Integration>)
    ensures FilteredIntegrations(integrations, "", None) == integrations
  {
    forall k | 0 <= k < |integrations|
      ensures Keeps("", None, integrations[k])
    {
      Search.EmptySearchMatches(integrations[k].name, integrations[k].description, integrations[k].category);
    }
    FilterKeepsAll(integrations, (i: Integration) => Keeps("", None, i));
  }

  /** With the initial integrations and no search, a trigger node is offered
      Slack and HTTP; Airtable has no triggers. */
  lemma DefaultTriggerChoices()
    ensures ShownIntegrations(IntegrationStore.DefaultIntegrations, "", None, Trigger)
         == [IntegrationStore.Slack, IntegrationStore.Http]
  {
    EmptyFilterKeepsAll(IntegrationStore.DefaultIntegrations);
    var p := (i: Integration) => Offers(Trigger, i);
    assert p(IntegrationStore.Slack) && !p(IntegrationStore.Airtable) && p(IntegrationStore.Http);
    FilterDropsMiddle(IntegrationStore.Slack, IntegrationStore.Airtable, IntegrationStore.Http, p);
  }

  /** The "Connect to" prompt under a card. */
  predicate ShowsConnectPrompt(i: Integration)
  {
    !i.connected && i.authType != NoAuth
  }

  /** Connecting an integration removes its prompt; disconnecting one that
      needs authentication brings it back. */
  lemma ConnectPromptFollowsFlag(integrations: seq<Integration>, id: string, k: nat)
    requires k < |integrations| && integrations[k].id == id
    ensures !ShowsConnectPrompt(IntegrationStore.SetConnected(integrations, id, true)[k])
    ensures ShowsConnectPrompt(IntegrationStore.SetConnected(integrations, id, false)[k])
        <==> integrations[k].authType != NoAuth
  {
  }

  /** At first Slack and Airtable show the prompt and HTTP does not. */
  lemma DefaultConnectPrompts()
    ensures ShowsConnectPrompt(IntegrationStore.Slack)
    ensures ShowsConnectPrompt(IntegrationStore.Airtable)
    ensures !ShowsConnectPrompt(IntegrationStore.Http)
  {
  }
}
