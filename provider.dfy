/**
 * `IssueProvider`: the tree data provider of the `githubIssues` view. Its
 * root rows are a decision table over the configuration and the reply to
 * the open-issues request (`Roots`); the provider itself only owns the
 * change event that `refresh()` fires.
 */
module Provider {
  import opened Js
  import opened Host
  import opened Items

  /** An issue as the listing request returns it. */
  datatype Issue = Issue(number: int, title: string, htmlUrl: string)

  /**
   * What one `getChildren` call produces: the rows, the listing request it
   * sends (if it gets that far) and the notifications it shows.
   */
  datatype Rendering = Rendering(nodes: seq<Node>, request: Option<RemoteCall>, notices: seq<Notice>)

  const SetTokenCommand := "githubIssues.setToken"
  const SelectRepositoryCommand := "githubIssues.selectRepository"

  const SetTokenPrompt := Prompt("Set GitHub Token", SetTokenCommand, "Set GitHub Personal Access Token")
  const SelectRepositoryPrompt := Prompt("Select Repository to show issues", SelectRepositoryCommand, "Select Repository")
  const AuthFailedPrompt := Prompt("Authentication failed. Set new Token?", SetTokenCommand, "Set GitHub Personal Access Token")
  const NoIssuesMessage := Message("No open issues found.")
  const FetchErrorMessage := Message("Error fetching issues. Check logs for details.")
  const FetchErrorNotice := Error("Failed to fetch issues from GitHub.", false)

  /** The tooltip `[owner/repo] #n` followed by a blank line and the title. */
  function Tooltip(owner: string, repo: string, issue: Issue): string {
    "[" + owner + "/" + repo + "] #" + IntToString(issue.number) + "\n\n" + issue.title
  }

  /** `issues.data.map(...)`: one entry per issue, in the order of the reply. */
  function Entries(owner: string, repo: string, issues: seq<Issue>): (ns: seq<Node>)
    ensures |ns| == |issues|
    ensures forall i :: 0 <= i < |issues| ==>
      && ns[i].Entry?
      && ns[i].text == Label(issues[i].number, issues[i].title)
      && ns[i].url == issues[i].htmlUrl
      && ns[i].owner == owner && ns[i].repo == repo && ns[i].number == issues[i].number
      && ns[i].tooltip == Tooltip(owner, repo, issues[i])
  {
    if issues == [] then []
    else
      var issue := issues[0];
      [Entry(Label(issue.number, issue.title), issue.htmlUrl, owner, repo, issue.number, Tooltip(owner, repo, issue))]
        + Entries(owner, repo, issues[1..])
  }

  /** The owner and name are both set, so the issues can be requested. */
  predicate Selected(cfg: Snapshot) {
    Truthy(cfg.repoOwner) && Truthy(cfg.repoName)
  }

  /** The root rows of the view, for a configuration and the reply to the listing request. */
  function Roots(cfg: Snapshot, fetched: Fetch<Issue>): (r: Rendering)
    // the panel is never blank
    ensures |r.nodes| >= 1
    // no token: only the set-token prompt, whatever the repository settings
    ensures !Truthy(cfg.authToken) ==> r == Rendering([SetTokenPrompt], None, [])
    // a token but no complete selection: only the select-repository prompt
    ensures Truthy(cfg.authToken) && !Selected(cfg) ==> r == Rendering([SelectRepositoryPrompt], None, [])
    // the issues are requested exactly when token, owner and name are all set
    ensures r.request.Some? <==> Truthy(cfg.authToken) && Selected(cfg)
    ensures r.request.Some? ==>
      r.request.value == ListOpenIssues(cfg.authToken, cfg.repoOwner.value, cfg.repoName.value)
    // the outcomes of the request
    ensures r.request.Some? && fetched.Fetched? && fetched.data == [] ==> r.nodes == [NoIssuesMessage]
    ensures r.request.Some? && fetched.Fetched? && fetched.data != [] ==>
      r.nodes == Entries(cfg.repoOwner.value, cfg.repoName.value, fetched.data)
    ensures r.request.Some? && fetched.Failed? && fetched.status == Some(401) ==> r.nodes == [AuthFailedPrompt]
    ensures r.request.Some? && fetched.Failed? && fetched.status != Some(401) ==> r.nodes == [FetchErrorMessage]
    // one error notification, and only for a failure other than 401
    ensures r.notices == (if r.request.Some? && fetched.Failed? && fetched.status != Some(401) then [FetchErrorNotice] else [])
  {
    if !Truthy(cfg.authToken) then Rendering([SetTokenPrompt], None, [])
    else if !Truthy(cfg.repoOwner) || !Truthy(cfg.repoName) then Rendering([SelectRepositoryPrompt], None, [])
    else
      var owner, repo := cfg.repoOwner.value, cfg.repoName.value;
      var request := Some(ListOpenIssues(cfg.authToken, owner, repo));
      match fetched
      case Fetched(issues) =>
        if |issues| == 0 then Rendering([NoIssuesMessage], request, [])
        else Rendering(Entries(owner, repo, issues), request, [])
      case Failed(status) =>
        if status == Some(401) then Rendering([AuthFailedPrompt], request, [])
        else Rendering([FetchErrorMessage], request, [FetchErrorNotice])
  }

  /** `getChildren(element)`: issues have no children; the root gets `Roots`. */
  function Children(element: Option<IssueItem>, cfg: Snapshot, fetched: Fetch<Issue>): (r: Rendering)
    ensures element.Some? ==> r == Rendering([], None, [])
    ensures element.None? ==> |r.nodes| >= 1
  {
    if element.Some? then Rendering([], None, []) else Roots(cfg, fetched)
  }

  /** Without a request the reply plays no part: no fetch is made. */
  lemma RootsWithoutRequest(cfg: Snapshot, fetched: Fetch<Issue>, other: Fetch<Issue>)
    requires Roots(cfg, fetched).request.None?
    ensures Roots(cfg, fetched) == Roots(cfg, other)
  {
  }

  /** Every issue row's label reads back as that issue's number and title. */
  lemma RootLabelsIdentifyIssues(cfg: Snapshot, issues: seq<Issue>, i: nat)
    requires Truthy(cfg.authToken) && Selected(cfg)
    requires i < |issues|
    ensures |Roots(cfg, Fetched(issues)).nodes| == |issues|
    ensures ParseLabel(Roots(cfg, Fetched(issues)).nodes[i].text) == Some((issues[i].number, issues[i].title))
  {
    ParseLabelOfLabel(issues[i].number, issues[i].title);
  }

  /**
   * The rows `closeIssue` and `addComment` accept are exactly the issue
   * entries of a successful request whose number is not 0.
   */
  lemma RootTargets(cfg: Snapshot, fetched: Fetch<Issue>, i: nat)
    requires i < |Roots(cfg, fetched).nodes|
    ensures ValidTarget(Some(ToTreeItem(Roots(cfg, fetched).nodes[i]))) <==>
      && Truthy(cfg.authToken) && Selected(cfg)
      && fetched.Fetched? && i < |fetched.data| && fetched.data[i].number != 0
  {
    ValidTargetOfNode(Roots(cfg, fetched).nodes[i]);
  }

  /** One open issue `#3` in `acme/widgets` gives exactly one entry for it. */
  lemma OneIssueExample()
    ensures var r := Roots(Snapshot(Some("tok"), Some("acme"), Some("widgets")), Fetched([Issue(3, "Crash on load", "https://x/3")]));
      && |r.nodes| == 1 && r.nodes[0].Entry?
      && r.nodes[0].text == "#3: Crash on load" && r.nodes[0].url == "https://x/3"
      && r.nodes[0].owner == "acme" && r.nodes[0].repo == "widgets" && r.nodes[0].number == 3
  {
    var cfg := Snapshot(Some("tok"), Some("acme"), Some("widgets"));
    assert Truthy(cfg.authToken) && Selected(cfg);
    assert DigitChar(3) == '3';
    assert Label(3, "Crash on load") == "#3: Crash on load";
  }

  class IssueProvider {
    /** How many times `_onDidChangeTreeData` has fired. */
    var fired: nat

    constructor ()
      ensures fired == 0
    {
      fired := 0;
    }

    /** `refresh()`: fire the change event so that the view asks for its rows again. */
    method Refresh()
      modifies this
      ensures fired == old(fired) + 1
    {
      fired := fired + 1;
    }

    /** `getChildren(element)`, reading the configuration from the workspace. */
    method GetChildren(ws: Workspace, element: Option<IssueItem>, fetched: Fetch<Issue>) returns (items: seq<IssueItem>)
      modifies ws
      ensures var r := Children(element, old(ws.Config()), fetched);
        && items == ToTreeItems(r.nodes)
        && ws.notices == old(ws.notices) + r.notices
        && ws.calls == old(ws.calls) + (if r.request.Some? then [r.request.value] else [])
      ensures ws.Config() == old(ws.Config()) && ws.writes == old(ws.writes)
    {
      if element.Some? {
        return [];
      }
      var r := Roots(ws.Config(), fetched);
      if r.request.Some? {
        ws.Send(r.request.value);
      }
      if r.notices != [] {
        ws.Show(FetchErrorNotice);
      }
      items := ToTreeItems(r.nodes);
    }
  }
}
