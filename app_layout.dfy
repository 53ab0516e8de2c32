/** The application frame: the page title derived from the path, and the
    mobile sidebar's open flag. */
module AppLayout {
  import opened JsValues

  /** `getPageTitle()`: substring tests, top to bottom. */
  function PageTitle(path: string): (title: string)
    ensures title in ["New Workflow", "Edit Workflow", "Workflows", "Templates", "Marketplace", "Settings",
                      "Connector Platform"]
  {
    if Includes(path, "/workflows/new") then "New Workflow"
    else if Includes(path, "/workflows/") then "Edit Workflow"
    else if Includes(path, "/workflows") then "Workflows"
    else if Includes(path, "/templates") then "Templates"
    else if Includes(path, "/marketplace") then "Marketplace"
    else if Includes(path, "/settings") then "Settings"
    else "Connector Platform"
  }

  /** A reference reading of the same classifier: an ordered table of
      (fragment, title) rules where the first rule whose fragment occurs wins. */
  datatype TitleRule = TitleRule(fragment: string, title: string)

  const TitleRules: seq<TitleRule> := [
    TitleRule("/workflows/new", "New Workflow"),
    TitleRule("/workflows/", "Edit Workflow"),
    TitleRule("/workflows", "Workflows"),
    TitleRule("/templates", "Templates"),
    TitleRule("/marketplace", "Marketplace"),
    TitleRule("/settings", "Settings")
  ]

  const FallbackTitle: string := "Connector Platform"

  function FirstMatch(rules: seq<TitleRule>, path: string, fallback: string): (title: string)
    ensures (forall i :: 0 <= i < |rules| ==> !Includes(path, rules[i].fragment)) ==> title == fallback
    ensures forall i :: 0 <= i < |rules| && Includes(path, rules[i].fragment)
              && (forall j :: 0 <= j < i ==> !Includes(path, rules[j].fragment))
              ==> title == rules[i].title
  {
    if rules == [] then fallback
    else if Includes(path, rules[0].fragment) then rules[0].title
    else FirstMatch(rules[1..], path, fallback)
  }

  /** The if-chain is the first-match table. */
  lemma PageTitleIsFirstMatch(path: string)
    ensures PageTitle(path) == FirstMatch(TitleRules, path, FallbackTitle)
  {
    var f := FallbackTitle;
    var r := TitleRules;
    assert FirstMatch(r[6..], path, f) == f;
    assert FirstMatch(r[5..], path, f) == if Includes(path, "/settings") then "Settings" else f;
    assert FirstMatch(r[4..], path, f)
        == if Includes(path, "/marketplace") then "Marketplace" else FirstMatch(r[5..], path, f);
    assert FirstMatch(r[3..], path, f)
        == if Includes(path, "/templates") then "Templates" else FirstMatch(r[4..], path, f);
    assert FirstMatch(r[2..], path, f)
        == if Includes(path, "/workflows") then "Workflows" else FirstMatch(r[3..], path, f);
    assert FirstMatch(r[1..], path, f)
        == if Includes(path, "/workflows/") then "Edit Workflow" else FirstMatch(r[2..], path, f);
  }

  /** The fallback title is shown exactly when no fragment occurs. */
  lemma FallbackExactly(path: string)
    ensures PageTitle(path) == FallbackTitle
        <==> forall i :: 0 <= i < |TitleRules| ==> !Includes(path, TitleRules[i].fragment)
  {
    var r := TitleRules;
    assert r[0].fragment == "/workflows/new" && r[1].fragment == "/workflows/" && r[2].fragment == "/workflows";
    assert r[3].fragment == "/templates" && r[4].fragment == "/marketplace" && r[5].fragment == "/settings";
  }

  /** Every path that mentions the new-workflow page also mentions the
      generic builder fragment, so the new-workflow test must come first, as
      it does. */
  lemma NewWorkflowShadowsEdit(path: string)
    requires Includes(path, "/workflows/new")
    ensures Includes(path, "/workflows/")
    ensures PageTitle(path) == "New Workflow"
  {
    assert "/workflows/new" == "/workflows/" + "new";
    IncludesPrefix(path, "/workflows/", "new");
  }

  lemma EditWorkflowExactly(path: string)
    ensures PageTitle(path) == "Edit Workflow"
        <==> Includes(path, "/workflows/") && !Includes(path, "/workflows/new")
  {
  }

  /** The list page: the plain fragment without the trailing slash. */
  lemma WorkflowsExactly(path: string)
    ensures PageTitle(path) == "Workflows" <==> Includes(path, "/workflows") && !Includes(path, "/workflows/")
  {
    if Includes(path, "/workflows/new") {
      NewWorkflowShadowsEdit(path);
    }
  }

  class Layout {
    var sidebarOpen: bool

    constructor ()
      ensures !sidebarOpen
    {
      sidebarOpen := false;
    }

    method ToggleSidebar()
      modifies this
      ensures sidebarOpen == !old(sidebarOpen)
    {
      sidebarOpen := !sidebarOpen;
    }

    /** Closing is idempotent: the flag is false whatever it was. */
    method CloseSidebar()
      modifies this
      ensures !sidebarOpen
    {
      sidebarOpen := false;
    }
  }
}
