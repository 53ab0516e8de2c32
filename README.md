# Connector workflow store, in Dafny

Connector is a no-code automation builder. A workflow is a graph of
trigger, action and condition nodes, drawn on a canvas and stored as a row
whose `data` field holds `{nodes, edges}`. This project models:

- the **workflow store**:
  - the list of workflows and the open workflow, `currentWorkflow`;
  - the workflow actions (fetch, create, load, update, delete);
  - the node actions (add, update, connect, and the two canvas change handlers);
  - the default payload of each node kind;
- the **integration store**: connect and disconnect flags, and lookup by id;
- the **node configuration panel**: its edit buffer, the single-key edits, and the patch it hands to `updateNode`;
- the **template gallery** and the **tool picker**:
  - the shared search and category filter;
  - the category lists;
  - the sample template graphs;
  - the triggers or actions offered for each node kind;
- the **toast queue**, the **tutorial step counter**, and the layout's **page title** and **sidebar flag**.

Each source file with state becomes a class, and each action becomes a
method whose `ensures` gives the whole new state. Each list or record
expression becomes a function. Lemmas state the properties that relate
them.

## Modelling choices

- **JavaScript values.** Node `data` and the panel's buffer are untyped
  JavaScript objects. They are modelled as `map<string, Value>`, where
  `Value` is a JavaScript value. The module `JsValues` gives:
  - property reads: a missing key reads as `undefined`;
  - truthiness, `||`, `?.` and object spread;
  - a shallow merge `{...a, ...b}`, written as the map union `a + b`, where the right side wins.
- **The storage client.** Every storage call is a parameter of the method
  that makes it:
  - a call with no argument is passed as its reply;
  - a call that sends something is passed as a function from the request
    to the reply, so the contract shows what was sent.
  - A thrown value is a `Failure(message, isErrorInstance)`. The store
    records `message` for an `Error` instance and the action's fallback
    text otherwise (`Common.MessageOf`).
- **Random ids.** The `nanoid(6)` suffix and the toast id are inputs. A
  node suffix must be six characters of the nanoid alphabet; that is what
  the generator guarantees.
- **Canvas library functions.** `applyNodeChanges`, `applyEdgeChanges` and
  `addEdge` are opaque function parameters. Nothing is assumed about them.
- **Node type.** In the store and the panel a node's `type` is a string,
  because records read back from storage are not checked. `addNode` takes
  the three-valued `NodeType`.
- **Strings.** `toLowerCase` is ASCII-only. `includes` is defined
  recursively and proved equal to "occurs at some offset".

What the code does about graph validity:

- The code has no connection validator. `connectNodes` accepts any
  connection (src/store/workflowStore.ts:298-336), so
  `WorkflowStore.Store.ConnectNodes` rejects none.
- Removing a node is left to the canvas library's `applyNodeChanges`. The
  store deletes no edges itself, so the model makes no claim about edges
  after a removal. `WorkflowTypes.WellFormed` states the graph invariant
  (unique node ids, every edge naming existing nodes). The model proves
  that `addNode` (given an unused id) and `updateNode` both preserve it;
  nothing in the code checks it.
- Change batches go to reactflow's own reducers, modelled here as
  parameters.
- `data` is an untyped object. `WorkflowTypes.ConformsTo` states the
  per-kind shape the configuration panel reads.

## Model

| member | source | states |
|---|---|---|
| Common.MessageOf | src/store/workflowStore.ts:69 | the error text recorded is the error's own message for an `Error` instance and the fallback text otherwise |
| JsValues.FalsyValues | src/components/workflow/NodeConfigPanel.tsx:28 | the values `||` replaces are exactly `undefined`, `null`, `false`, `0` and the empty string |
| JsValues.Or | src/components/workflow/NodeConfigPanel.tsx:28 | `a || b` is `a` when `a` is truthy and `b` otherwise |
| JsValues.Spread | src/components/workflow/NodeConfigPanel.tsx:29 | `{ ...v }` has an object's own fields and no field for any other value |
| JsValues.SpreadCopiesObject | src/components/workflow/NodeConfigPanel.tsx:29 | a spread copy of an object is equal to it |
| JsValues.Lower | src/pages/Templates.tsx:154 | `toLowerCase` keeps the length and maps each ASCII capital to its small letter, leaving other characters |
| JsValues.LowerIdempotent | src/pages/Templates.tsx:154-155 | lower-casing twice equals lower-casing once |
| JsValues.IncludesIffOccurs | src/pages/Templates.tsx:154 | `s.includes(t)` holds exactly when `t` occurs in `s` at some offset |
| JsValues.IncludesEmpty | src/pages/Templates.tsx:154 | every string includes the empty string |
| JsValues.IncludesPrefix | src/components/workflow/ToolPicker.tsx:35 | a string that includes `t + u` includes `t` |
| WorkflowStore.DefaultNodeData | src/store/workflowStore.ts:29-40 | the three known kinds get data that has their kind's shape (a string name, a selector from the panel's options with a config object, or a three-field condition); any other type gets exactly `{ name: 'Unknown Node' }`; the name is always non-empty |
| WorkflowStore.DefaultNodeDataValues | src/store/workflowStore.ts:29-40 | the exact default object of each kind, and the `Unknown Node` object for another type |
| WorkflowStore.ParseNodeId | src/store/workflowStore.ts:207 | an id it accepts is `type-suffix` with a six-character nanoid suffix |
| WorkflowStore.NodeIdRoundTrip | src/store/workflowStore.ts:207 | parsing an id built from a type and a nanoid suffix gives back that type and that suffix |
| WorkflowStore.NewNode | src/store/workflowStore.ts:206-211 | the new node's id parses back to its type and suffix; it has the given type and position, and data of its kind's shape |
| WorkflowStore.PatchNode | src/store/workflowStore.ts:249 | id, type and position are kept; a node with another id is unchanged; the matching node's data has the union of keys, with patch keys winning and the other keys kept |
| WorkflowStore.NewEdge | src/store/workflowStore.ts:303-306 | the edge copies source, target and both handles from the connection, and its id is `edge-` plus the suffix, whatever the connection held |
| WorkflowStore.WithNodeAdded | src/store/workflowStore.ts:213 | exactly one node is added, at the end; earlier nodes and all edges are unchanged |
| WorkflowStore.UpdateNodes | src/store/workflowStore.ts:248-250 | count, order, ids, types and positions are kept; nodes with another id are unchanged; a matching node's data has the union of keys, with patch keys winning and other keys kept |
| WorkflowStore.UpdateNodesPointwise | src/store/workflowStore.ts:248-250 | each node of the result is the node at the same place, patched when its id is the one given |
| WorkflowStore.UpdateNodesAbsent | src/store/workflowStore.ts:248-250 | a patch for an id no node has leaves the node list equal |
| WorkflowStore.UpdateNodesIdempotent | src/store/workflowStore.ts:248-250 | applying the same patch twice equals applying it once |
| WorkflowStore.UpdateNodesKeepsIds | src/store/workflowStore.ts:248-250 | the list of node ids is unchanged by a node update |
| WorkflowStore.UpdateNodesKeepsWellFormed | src/store/workflowStore.ts:248-250 | a graph with unique node ids and resolving edges keeps both after a node update |
| WorkflowStore.AddNodeKeepsWellFormed | src/store/workflowStore.ts:206-213 | appending a node whose id is not in use keeps ids unique and edges resolving |
| WorkflowStore.RenameKeepsTriggerDefaults | src/store/workflowStore.ts:201-250 | adding a trigger and then patching only its name leaves earlier nodes equal and keeps the default trigger type and config |
| WorkflowStore.Normalize | src/store/workflowStore.ts:62-65 | every field of the row is kept, and a missing `data` becomes the empty graph |
| WorkflowStore.NormalizeAll | src/store/workflowStore.ts:62-65 | a missing row list gives no workflows; otherwise each row is normalised, in order |
| WorkflowStore.NormalizeRoundTrip | src/store/workflowStore.ts:131 | a record stored with its graph and read back is the same record |
| WorkflowStore.MergeWorkflow | src/store/workflowStore.ts:164-166 | each field present in the patch replaces the record's field, and every absent one is kept |
| WorkflowStore.UpdateRequest | src/store/workflowStore.ts:150-153 | the request sends the open workflow's graph as `data` and every other field as given in `updates` |
| WorkflowStore.UpdateRequestCarriesCurrentGraph | src/store/workflowStore.ts:150-153 | a record merged with the request carries the open workflow's graph, whatever `updates` says about `data` |
| WorkflowStore.MergeMatching | src/store/workflowStore.ts:163-165 | length and order are kept; exactly the entries with the id are merged |
| WorkflowStore.RemoveWorkflow | src/store/workflowStore.ts:189 | no remaining entry has the id |
| WorkflowStore.RemoveWorkflowExactly | src/store/workflowStore.ts:189 | an entry remains if and only if it was there and has another id; every copy of a kept entry remains and none of a removed one; the rest keep their order |
| WorkflowStore.ClearIfDeleted | src/store/workflowStore.ts:190 | the open workflow is cleared exactly when its id is the deleted one, and is otherwise kept |
| WorkflowStore.Store.constructor | src/store/workflowStore.ts:43-48 | no workflows, none open, not loading, no error |
| WorkflowStore.Store.FetchWorkflows | src/store/workflowStore.ts:50-75 | on success the list is the normalised rows and the error is cleared; on failure the error is recorded and the list is kept; loading ends false either way |
| WorkflowStore.Store.CreateWorkflow | src/store/workflowStore.ts:77-115 | when `getUser` rejects, finds no user, or the insert fails or returns nothing, it rejects, records the message, and leaves list and open workflow unchanged; otherwise it sends an empty graph with an empty description, prepends the stored row, opens it and returns its id; loading ends false |
| WorkflowStore.Store.LoadWorkflow | src/store/workflowStore.ts:117-141 | a found row is opened with its graph normalised; a missing row rejects with "Workflow not found"; a failure keeps the open workflow; the list is never touched |
| WorkflowStore.Store.UpdateWorkflow | src/store/workflowStore.ts:143-175 | with no open workflow it rejects before sending; it sends `updates` with the open graph; on success it merges only list entries with the id and merges the open workflow whatever its id; on failure nothing changes but the error |
| WorkflowStore.Store.DeleteWorkflow | src/store/workflowStore.ts:177-199 | on success the entries with the id are removed and the open workflow is cleared exactly when it has the id; on failure nothing changes but the error |
| WorkflowStore.Store.AddNode | src/store/workflowStore.ts:201-241 | with no open workflow, or when the save fails, the open workflow is unchanged and the error is recorded; otherwise the saved and committed graph is the old one with the new node appended; the error is not reset |
| WorkflowStore.Store.UpdateNode | src/store/workflowStore.ts:243-278 | the same atomicity, with the graph whose matching nodes have the patch merged |
| WorkflowStore.Store.OnNodesChange | src/store/workflowStore.ts:280-296 | with no open workflow nothing changes; otherwise only the open graph's nodes are replaced by the library's result |
| WorkflowStore.Store.ConnectNodes | src/store/workflowStore.ts:298-336 | the same atomicity, with the graph whose edges are the library's insertion of the new edge, and whose nodes are unchanged |
| WorkflowStore.Store.OnEdgesChange | src/store/workflowStore.ts:338-354 | with no open workflow nothing changes; otherwise only the open graph's edges are replaced |
| IntegrationStore.DefaultIntegrationsInitially | src/store/integrationStore.ts:11-183 | the initial list `defaultIntegrations` is slack, airtable, http, and only http is connected; their auth types are OAuth, API key and none; Slack has one trigger and one action, Airtable no trigger and two actions, HTTP one of each |
| IntegrationStore.SetConnected | src/store/integrationStore.ts:187-189 | length and order are kept; exactly the entries with the id get the new flag, with every other field unchanged |
| IntegrationStore.SetConnectedLastWins | src/store/integrationStore.ts:185-199 | connecting then disconnecting (or the reverse) equals the last action alone |
| IntegrationStore.FindById | src/store/integrationStore.ts:202 | none exactly when no entry has the id; otherwise the first entry with the id |
| IntegrationStore.FindIndexSetConnected | src/store/integrationStore.ts:185-202 | changing flags does not move the first entry with an id |
| IntegrationStore.FindAfterSetConnected | src/store/integrationStore.ts:185-203 | after a connect or disconnect, a lookup finds the same entry with the new flag, or none if there was none |
| IntegrationStore.Store.constructor | src/store/integrationStore.ts:183 | the store starts with the default list |
| IntegrationStore.Store.ConnectIntegration | src/store/integrationStore.ts:185-191 | the list becomes the old one with matching entries connected; the credentials play no part |
| IntegrationStore.Store.DisconnectIntegration | src/store/integrationStore.ts:193-199 | the list becomes the old one with matching entries disconnected |
| IntegrationStore.Store.GetIntegration | src/store/integrationStore.ts:201-203 | the result is the first entry with the id, or none exactly when there is none |
| NodeConfigPanel.Lookup | src/components/workflow/NodeConfigPanel.tsx:19-21 | a result requires a non-empty id and an open workflow, and is the first node of the list with that id; when such a node exists one is found |
| NodeConfigPanel.ConditionBuffer | src/components/workflow/NodeConfigPanel.tsx:36-43 | exactly left, operator and right; each is the existing value when truthy, else `''`, `'equals'` or `''` |
| NodeConfigPanel.InitialConfig | src/components/workflow/NodeConfigPanel.tsx:26-43 | a buffer for exactly the three kinds; trigger and action buffers hold the selector (existing if truthy, else `'webhook'` or `'http'`) and a shallow copy of `config`; a condition buffer holds the defaulted condition |
| NodeConfigPanel.MissingSelectorIsFalsySelector | src/components/workflow/NodeConfigPanel.tsx:28-33 | a falsy selector and a missing one give the same buffer |
| NodeConfigPanel.ConfigChanged | src/components/workflow/NodeConfigPanel.tsx:66-69 | only key `k` of `config` becomes `v`; other config keys and other buffer fields are unchanged |
| NodeConfigPanel.ConditionChanged | src/components/workflow/NodeConfigPanel.tsx:72-75 | only field `f` of `condition` becomes `v`; everything else is unchanged |
| NodeConfigPanel.ConfigChangedLastWins | src/components/workflow/NodeConfigPanel.tsx:66-69 | two edits of one key equal the second edit |
| NodeConfigPanel.ConfigChangedCommute | src/components/workflow/NodeConfigPanel.tsx:66-69 | edits of different keys commute |
| NodeConfigPanel.SubmitPatch | src/components/workflow/NodeConfigPanel.tsx:56-60 | keys of node data, name and buffer; buffer keys win, then the name, then the node's data |
| NodeConfigPanel.SaveWithoutEditsKeepsData | src/components/workflow/NodeConfigPanel.tsx:18-60 | opening the panel on a node whose data has its kind's shape and saving without edits submits exactly that data |
| NodeConfigPanel.Panel.constructor | src/components/workflow/NodeConfigPanel.tsx:14-16 | no node, empty name, empty buffer |
| NodeConfigPanel.Panel.Sync | src/components/workflow/NodeConfigPanel.tsx:18-47 | with no node found nothing changes; otherwise node and name are taken from the found node, and the buffer is its initial config (kept as it was for other types) |
| NodeConfigPanel.Panel.SetNodeName | src/components/workflow/NodeConfigPanel.tsx:306 | the name becomes the typed text |
| NodeConfigPanel.Panel.ChooseSelector | src/components/workflow/NodeConfigPanel.tsx:87 | one top-level buffer key set to the chosen option |
| NodeConfigPanel.Panel.HandleConfigChange | src/components/workflow/NodeConfigPanel.tsx:66-69 | the buffer becomes the single-key config edit |
| NodeConfigPanel.Panel.HandleConditionChange | src/components/workflow/NodeConfigPanel.tsx:72-75 | the buffer becomes the single-field condition edit |
| NodeConfigPanel.Panel.HandleSubmit | src/components/workflow/NodeConfigPanel.tsx:51-63 | nothing is sent exactly when the id is null or empty; otherwise `updateNode` gets the id and the submit patch |
| Search.EmptySearchMatches | src/pages/Templates.tsx:154-156 | an empty term with no category matches any entry |
| Search.MatchesSearch | src/pages/Templates.tsx:154-155 | the lower-cased name or the lower-cased description includes the lower-cased term |
| Search.MatchesCategory | src/pages/Templates.tsx:156 | no category is selected (null or empty), or the entry's category is the selected one |
| Search.Matches | src/pages/Templates.tsx:157 | both tests hold |
| Search.MatchesExactly | src/components/workflow/ToolPicker.tsx:33-38 | the whole test: the lower-cased term occurs at some offset of the lower-cased name or description, and the category is unselected, empty or equal |
| Search.SearchIgnoresTermCase | src/pages/Templates.tsx:154-155 | lower-casing the term first changes nothing |
| Search.SearchIgnoresEntryCase | src/components/workflow/ToolPicker.tsx:34-36 | lower-casing name and description first changes nothing |
| Search.SearchNarrows | src/components/workflow/ToolPicker.tsx:34-36 | an entry matching a term matches every prefix of it |
| Search.Categories | src/pages/Templates.tsx:150 | the category list both pages build: no duplicates; every entry's category is listed, and only those |
| Search.CategoriesInFirstUseOrder | src/components/workflow/ToolPicker.tsx:28-30 | categories are listed in the order of their first use |
| Templates.ApiToDatabaseWellFormed | src/pages/Templates.tsx:21-44 | unique node ids, and every edge's ends name nodes of the sample |
| Templates.FormSubmissionHandlerWellFormed | src/pages/Templates.tsx:60-97 | unique node ids, and every edge's ends name nodes of the sample |
| Templates.NotificationSystemWellFormed | src/pages/Templates.tsx:113-136 | unique node ids, and every edge's ends name nodes of the sample |
| Templates.ApiToDatabaseNodesConform | src/pages/Templates.tsx:21-39 | each node's data has its kind's shape |
| Templates.FormSubmissionHandlerNodesConform | src/pages/Templates.tsx:60-91 | each node's data has its kind's shape |
| Templates.NotificationSystemNodesConform | src/pages/Templates.tsx:113-131 | each node's data has its kind's shape |
| Templates.SampleGraphsWellFormed | src/pages/Templates.tsx:9-141 | every sample graph is well formed and its nodes have their kinds' shapes |
| Templates.SampleCategories | src/pages/Templates.tsx:150 | the sample categories are Data Integration, Web, Communication |
| Templates.Categories | src/pages/Templates.tsx:150 | the gallery's category buttons: the shared category list over the templates |
| Templates.Keeps | src/pages/Templates.tsx:153-158 | the filter callback: the search and category test on a template |
| Templates.SampleTemplatesAsWritten | src/pages/Templates.tsx:9-141 | `sampleTemplates` holds three samples, template-1 to template-3, with their names, each with a thumbnail and a workflow id ending in `-workflow` |
| Templates.FilteredTemplates | src/pages/Templates.tsx:153-158 | every shown template passes the search and category test |
| Templates.FilteredTemplatesExactly | src/pages/Templates.tsx:153-158 | a template is shown if and only if it is listed, its lower-cased name or description includes the lower-cased term, and no category is selected or its category is the selected one; every copy of a shown template is kept |
| Templates.FilteredTemplatesInOrder | src/pages/Templates.tsx:153 | the shown templates are a subsequence of the list |
| Templates.EmptyFilterShowsAll | src/pages/Templates.tsx:153-158 | an empty term with no category shows every template |
| ToolPicker.DefaultCategories | src/components/workflow/ToolPicker.tsx:28-30 | for the initial integrations: Communication, Database, Development |
| ToolPicker.Categories | src/components/workflow/ToolPicker.tsx:28-30 | the picker's category buttons: the shared category list over the integrations |
| ToolPicker.Keeps | src/components/workflow/ToolPicker.tsx:33-39 | the filter callback: the search and category test on an integration |
| ToolPicker.FilteredIntegrations | src/components/workflow/ToolPicker.tsx:33-39 | every integration kept passes the search and category test |
| ToolPicker.FilteredIntegrationsExactly | src/components/workflow/ToolPicker.tsx:33-39 | an integration is kept if and only if it is listed, matches the search case-insensitively, and the category is unselected or equal; every copy of a kept integration is kept |
| ToolPicker.RelevantActions | src/components/workflow/ToolPicker.tsx:42-46 | triggers for a trigger node, actions for an action node, nothing for a condition node |
| ToolPicker.ShownIntegrations | src/components/workflow/ToolPicker.tsx:107-109 | every card shown has at least one relevant trigger or action |
| ToolPicker.ShownIntegrationsExactly | src/components/workflow/ToolPicker.tsx:33-46 | a card is shown if and only if its integration passes the filter and offers something for the kind |
| ToolPicker.ConditionShowsNothing | src/components/workflow/ToolPicker.tsx:42-46 | a condition node is shown no card |
| ToolPicker.EmptyFilterKeepsAll | src/components/workflow/ToolPicker.tsx:33-39 | an empty term with no category keeps every integration |
| ToolPicker.DefaultTriggerChoices | src/components/workflow/ToolPicker.tsx:107-109 | with the initial integrations a trigger node is offered Slack and HTTP, in that order |
| ToolPicker.ConnectPromptFollowsFlag | src/components/workflow/ToolPicker.tsx:149 | after connecting, an integration shows no prompt; after disconnecting, it shows one exactly when it needs authentication |
| ToolPicker.ShowsConnectPrompt | src/components/workflow/ToolPicker.tsx:149 | the "Connect to" prompt is shown for an integration that is not connected and needs authentication |
| ToolPicker.DefaultConnectPrompts | src/components/workflow/ToolPicker.tsx:149 | at first Slack and Airtable show the prompt and HTTP does not |
| ToastContext.TypeOrDefault | src/context/ToastContext.tsx:32 | a call without a type gets `info` |
| ToastContext.WithoutToast | src/context/ToastContext.tsx:44-48 | no remaining toast has the id |
| ToastContext.WithoutToastExactly | src/context/ToastContext.tsx:44-48 | a toast remains if and only if it was there and has another id; every copy of a kept toast remains |
| ToastContext.WithoutToastInOrder | src/context/ToastContext.tsx:46 | the remaining toasts keep their order |
| ToastContext.WithoutAbsentToast | src/context/ToastContext.tsx:45-47 | removing an absent id leaves the list equal |
| ToastContext.WithoutToastIdempotent | src/context/ToastContext.tsx:44-48 | removing twice equals removing once |
| ToastContext.RemoveAfterAdd | src/context/ToastContext.tsx:36-41 | removing a toast just added with a fresh id restores the earlier list |
| ToastContext.ToastProvider.constructor | src/context/ToastContext.tsx:30 | no toasts |
| ToastContext.ToastProvider.AddToast | src/context/ToastContext.tsx:32-36 | exactly one toast is appended, with the given id, message and type (info by default); existing toasts are unchanged |
| ToastContext.ToastProvider.RemoveToast | src/context/ToastContext.tsx:44-48 | the list becomes the old one without the id |
| TutorialModal.NextStep | src/components/tutorial/TutorialModal.tsx:50-55 | one more unless on the last step, where it stays; stays in range |
| TutorialModal.PreviousStep | src/components/tutorial/TutorialModal.tsx:57-62 | one less unless at 0, where it stays; stays in range |
| TutorialModal.TutorialStepsAsWritten | src/components/tutorial/TutorialModal.tsx:13-39 | `tutorialSteps` has five steps with the dialog's titles, each with an image |
| TutorialModal.Run | src/components/tutorial/TutorialModal.tsx:50-62 | the step reached by a sequence of Next and Previous presses, each applying the handler's step rule |
| TutorialModal.NextThenPrevious | src/components/tutorial/TutorialModal.tsx:50-62 | Next then Previous returns to the step, except from the last |
| TutorialModal.PreviousThenNext | src/components/tutorial/TutorialModal.tsx:50-62 | Previous then Next returns to the step, except from 0 |
| TutorialModal.RunStaysInRange | src/components/tutorial/TutorialModal.tsx:47-62 | any sequence of presses keeps the step within 0..4 |
| TutorialModal.FourNextsReachTheEnd | src/components/tutorial/TutorialModal.tsx:50-55 | four presses of Next lead from the first step to the last |
| TutorialModal.VisibleButtonsAlwaysMove | src/components/tutorial/TutorialModal.tsx:146-175 | Complete is offered only on the fifth step; an offered Next always advances and an enabled Previous always goes back |
| TutorialModal.Modal.constructor | src/components/tutorial/TutorialModal.tsx:47 | the step starts at 0 and nothing has been written |
| TutorialModal.Modal.HandleNext | src/components/tutorial/TutorialModal.tsx:50-55 | the step moves forward; a progress write with the new step is sent exactly when it moved |
| TutorialModal.Modal.HandlePrevious | src/components/tutorial/TutorialModal.tsx:57-62 | the step moves back; a progress write with the new step is sent exactly when it moved |
| TutorialModal.Modal.HandleComplete | src/components/tutorial/TutorialModal.tsx:64-82 | sends `has_completed_tutorial = true` with progress 5; closes exactly when the update succeeds; adds a success or an error toast accordingly |
| AppLayout.PageTitle | src/components/layout/AppLayout.tsx:23-32 | one of the seven titles |
| AppLayout.FirstMatch | src/components/layout/AppLayout.tsx:24-31 | the fallback when no fragment occurs; otherwise the title of the first rule whose fragment occurs |
| AppLayout.PageTitleIsFirstMatch | src/components/layout/AppLayout.tsx:24-31 | the if-chain equals the first-match table |
| AppLayout.FallbackExactly | src/components/layout/AppLayout.tsx:31 | "Connector Platform" exactly when no listed fragment occurs |
| AppLayout.NewWorkflowShadowsEdit | src/components/layout/AppLayout.tsx:25-26 | a new-workflow path also contains the builder fragment, and still gets "New Workflow" |
| AppLayout.EditWorkflowExactly | src/components/layout/AppLayout.tsx:26 | "Edit Workflow" exactly when the path contains `/workflows/` but not `/workflows/new` |
| AppLayout.WorkflowsExactly | src/components/layout/AppLayout.tsx:27 | "Workflows" exactly when the path contains `/workflows` but not `/workflows/` |
| AppLayout.Layout.constructor | src/components/layout/AppLayout.tsx:12 | the sidebar starts closed |
| AppLayout.Layout.ToggleSidebar | src/components/layout/AppLayout.tsx:15-17 | the flag is negated |
| AppLayout.Layout.CloseSidebar | src/components/layout/AppLayout.tsx:19-21 | the flag is false whatever it was, so closing twice equals closing once |

## Left out

- Storage and authentication: every `supabase` call is replaced by its reply, passed in as a parameter. The user id sent with the tutorial writes is not modelled. The order of the fetched list (`created_at` descending) is whatever the reply holds.
- Canvas library: `applyNodeChanges`, `applyEdgeChanges` and `addEdge` are parameters with no assumed properties. So nothing is claimed about reordering, deduplication, or edges left dangling after a node is removed.
- Interleaving: each async action is modelled atomically, as snapshot, then reply, then commit. A second action between an action's snapshot and its commit is not modelled.
- Id generation: `nanoid(6)` and `Math.random().toString(36)` are inputs. No claim is made that ids do not collide.
- WorkflowStore.Store.AddNode: takes the three-valued node type, as the store's signature does. The `Unknown Node` default is reachable only through `DefaultNodeData` on a string.
- Store fields `executions` and `status` are never changed by the modelled actions and are not modelled.
- `nodes || []` and `edges || []` in `addNode`, `connectNodes` and `onEdgesChange`: a graph always has both lists, so these defaults are not modelled.
- Object key order is not kept, because objects are maps. Spreading a string or an array into an object is not modelled (`Spread` gives nothing for them). NaN is not modelled.
- Node positions are reals; JavaScript number arithmetic is not used anywhere.
- `toLowerCase` is modelled for ASCII letters only.
- NodeConfigPanel: the effect searches `currentWorkflow.nodes`, while the store keeps the nodes under `currentWorkflow.data.nodes`. The mismatch is not reconciled. The list that is searched is a parameter of `NodeConfigPanel.Panel.Sync`, `None` when no workflow is open.
- NodeConfigPanel: the `isOpen` flag, the `onClose` callback and the JSX fields are rendering. `NodeConfigPanel.Panel.HandleSubmit` requires a loaded node, as the form is rendered only then.
- Templates: the sample `workflow` objects are written with top-level `nodes`, `edges`, `createdAt` and `updatedAt`, not the `data` shape of the workflow type. The model keeps the samples' shape. The timestamps come from the clock and are left out.
- Templates: using a template calls `importWorkflow`, which the workflow store does not declare. Its only behaviour is the caught failure, so it is not modelled.
- ToolPicker: the heading text and the card rendering are not modelled.
- Toasts: the five-second auto-remove timer is timing behaviour. `ToastContext.RemoveAfterAdd` states what it does when nothing intervenes. The context's no-op default value, used outside a provider, is not modelled.
- TutorialModal: the progress-bar width arithmetic and the rendering of each step are not modelled. A failed progress write is only logged, so the model records the writes sent and no reply for them.
- Auth, routing, and the other pages and components are UI glue or session I/O, and are not modelled.
