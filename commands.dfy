/**
 * The command handlers registered in `activate`: `githubIssues.setToken`,
 * `githubIssues.selectRepository`, `githubIssues.closeIssue` and
 * `githubIssues.addComment`, each as one sequential run. What the user
 * types or picks and what the API replies are parameters.
 */
module Commands {
  import opened Js
  import opened Host
  import opened Items
  import opened Provider
  import opened Repos

  const TokenSaved := "GitHub token saved successfully!"
  const SetTokenFirst := "Please set your GitHub Personal Access Token first."
  const FetchReposFailed := "Could not fetch repositories."
  const AuthFailedHint := "\nAuthentication failed. Please check if your token is correct and has 'repo' scope."
  const RetryHint := "\nPlease check your token, network connection, and try again."
  const NoRepos := "No repositories found that you have access to."
  const ConfirmClose := "Yes, close issue"
  const InvalidCloseTarget := "Cannot close issue. Invalid item selected."
  const InvalidCommentTarget := "Cannot comment on issue. Invalid item selected."

  function RepositoryChanged(text: string): string {
    "Repository changed to " + text + " \U{1F389}"
  }

  function AskClose(number: int): string {
    "Are you sure you want to close issue #" + IntToString(number) + "?"
  }

  function Closed(number: int): string {
    "Successfully closed issue #" + IntToString(number) + "."
  }

  function Commented(number: int): string {
    "Successfully commented on issue #" + IntToString(number) + "."
  }

  /**
   * `githubIssues.setToken`: a truthy token typed into the input box is
   * stored, acknowledged, and the view refreshed; anything else changes nothing.
   */
  method SetToken(ws: Workspace, provider: IssueProvider, entered: Option<string>)
    modifies ws, provider
    ensures ws.authToken == if Truthy(entered) then entered else old(ws.authToken)
    ensures ws.repoOwner == old(ws.repoOwner) && ws.repoName == old(ws.repoName)
    ensures ws.writes == old(ws.writes) + (if Truthy(entered) then [(AuthToken, entered)] else [])
    ensures ws.notices == old(ws.notices) + (if Truthy(entered) then [Info(TokenSaved)] else [])
    ensures provider.fired == old(provider.fired) + (if Truthy(entered) then 1 else 0)
    ensures ws.calls == old(ws.calls)
  {
    if Truthy(entered) {
      ws.Update(AuthToken, entered);
      ws.Show(Info(TokenSaved));
      provider.Refresh();
    }
  }

  /** The token `selectRepository` goes on with after asking for one when none was set. */
  function PromptedToken(current: Option<string>, entered: Option<string>): Option<string> {
    if Truthy(current) || !Truthy(entered) then current else entered
  }

  /** The notifications of asking for a missing token. */
  function PromptNotices(current: Option<string>, entered: Option<string>): seq<Notice> {
    if Truthy(current) then []
    else [Warning(SetTokenFirst, false)] + (if Truthy(entered) then [Info(TokenSaved)] else [])
  }

  /** The quick-pick list shown for a reply to the repository listing. */
  function Offered(fetched: Fetch<Repo>, leq: (string, string) -> bool): seq<PickItem> {
    if fetched.Fetched? && fetched.data != [] then QuickPickItems(fetched.data, leq) else []
  }

  /** The label of the picked item, if the list was shown and an item picked. */
  function Picked(fetched: Fetch<Repo>, leq: (string, string) -> bool, choice: Option<nat>): Option<string>
    requires fetched.Fetched? && choice.Some? ==> choice.value < |fetched.data|
  {
    if fetched.Fetched? && fetched.data != [] && choice.Some? then
      Some(QuickPickItems(fetched.data, leq)[choice.value].text)
    else None
  }

  /** The notifications of the steps of `selectRepository` after the repositories were requested. */
  function SelectionNotices(fetched: Fetch<Repo>, reentered: Option<string>, picked: Option<string>): seq<Notice> {
    match fetched
    case Failed(status) =>
      if status == Some(401) then
        (if Truthy(reentered) then [Info(TokenSaved)] else []) + [Error(FetchReposFailed + AuthFailedHint, true)]
      else [Error(FetchReposFailed + RetryHint, true)]
    case Fetched(repos) =>
      if repos == [] then [Info(NoRepos)]
      else if picked.None? then []
      else [Info(RepositoryChanged(picked.value))]
  }

  /** The settings written after the repositories were requested. */
  function SelectionWrites(fetched: Fetch<Repo>, reentered: Option<string>, picked: Option<string>): seq<(Key, Option<string>)> {
    if fetched == Failed(Some(401)) && Truthy(reentered) then [(AuthToken, reentered)]
    else if fetched.Fetched? && fetched.data != [] && picked.Some? then
      [(RepoOwner, Some(SplitFullName(picked.value).0)), (RepoName, SplitFullName(picked.value).1)]
    else []
  }

  /**
   * The token `selectRepository` goes on with: the one it read first if
   * that is truthy, otherwise whatever the second `config.get` returns.
   * That read goes to the same configuration object as the first, so what
   * it returns is host behaviour and handed in as `reread`.
   */
  function RecheckedToken(current: Option<string>, reread: Option<string>): Option<string> {
    if Truthy(current) then current else reread
  }

  /**
   * src/extension.ts:72-84 as written: without a token, warn, run
   * `setToken`, then read the token again from the configuration object
   * taken before the prompt (`reread` is what that read returns).
   */
  method EnsureToken(ws: Workspace, provider: IssueProvider, entered: Option<string>, reread: Option<string>) returns (token: Option<string>)
    modifies ws, provider
    ensures token == RecheckedToken(old(ws.authToken), reread)
    ensures ws.authToken == PromptedToken(old(ws.authToken), entered)
    ensures ws.repoOwner == old(ws.repoOwner) && ws.repoName == old(ws.repoName)
    ensures ws.writes == old(ws.writes) + (if !Truthy(old(ws.authToken)) && Truthy(entered) then [(AuthToken, entered)] else [])
    ensures ws.notices == old(ws.notices) + PromptNotices(old(ws.authToken), entered)
    ensures provider.fired == old(provider.fired) + (if !Truthy(old(ws.authToken)) && Truthy(entered) then 1 else 0)
    ensures ws.calls == old(ws.calls)
  {
    token := ws.authToken;
    if !Truthy(token) {
      ws.Show(Warning(SetTokenFirst, false));
      SetToken(ws, provider, entered);
      token := reread;
    }
  }

  /**
   * The check of src/extension.ts:72-84 as intended: the second read sees
   * the token `setToken` just stored, so a token typed at the prompt is the
   * one the command goes on with.
   */
  method EnsureTokenFresh(ws: Workspace, provider: IssueProvider, entered: Option<string>) returns (token: Option<string>)
    modifies ws, provider
    ensures token == PromptedToken(old(ws.authToken), entered) && ws.authToken == token
    ensures !Truthy(old(ws.authToken)) && Truthy(entered) ==> token == entered
    ensures Truthy(token) <==> Truthy(old(ws.authToken)) || Truthy(entered)
    ensures ws.repoOwner == old(ws.repoOwner) && ws.repoName == old(ws.repoName)
    ensures ws.writes == old(ws.writes) + (if !Truthy(old(ws.authToken)) && Truthy(entered) then [(AuthToken, entered)] else [])
    ensures ws.notices == old(ws.notices) + PromptNotices(old(ws.authToken), entered)
    ensures provider.fired == old(provider.fired) + (if !Truthy(old(ws.authToken)) && Truthy(entered) then 1 else 0)
    ensures ws.calls == old(ws.calls)
  {
    token := ws.authToken;
    if !Truthy(token) {
      ws.Show(Warning(SetTokenFirst, false));
      SetToken(ws, provider, entered);
      token := ws.authToken;
    }
  }

  /**
   * When the configuration object is a snapshot taken before the prompt,
   * the second read returns the same falsy value as the first: the command
   * stops even though `setToken` has just stored the typed token.
   */
  lemma SnapshotRecheckAborts(current: Option<string>, entered: Option<string>)
    requires !Truthy(current) && Truthy(entered)
    ensures PromptedToken(current, entered) == entered
    ensures !Truthy(RecheckedToken(current, current))
  {
  }

  /**
   * When the second read sees what `setToken` stored, `selectRepository`
   * goes on with exactly the token of the intended check (`EnsureTokenFresh`),
   * and it goes on exactly when a token was set or typed.
   */
  lemma FreshRecheckSeesToken(current: Option<string>, entered: Option<string>)
    ensures RecheckedToken(current, PromptedToken(current, entered)) == PromptedToken(current, entered)
    ensures Truthy(PromptedToken(current, entered)) <==> Truthy(current) || Truthy(entered)
  {
  }

  /** src/extension.ts:103-142: handle the reply to the repository listing and apply the pick. */
  method ApplyListing(
    ws: Workspace, provider: IssueProvider, reentered: Option<string>,
    fetched: Fetch<Repo>, leq: (string, string) -> bool, choice: Option<nat>)
    returns (offered: seq<PickItem>)
    requires fetched.Fetched? && choice.Some? ==> choice.value < |fetched.data|
    modifies ws, provider
    ensures offered == Offered(fetched, leq)
    ensures ws.notices == old(ws.notices) + SelectionNotices(fetched, reentered, Picked(fetched, leq, choice))
    ensures ws.writes == old(ws.writes) + SelectionWrites(fetched, reentered, Picked(fetched, leq, choice))
    ensures ws.authToken == if fetched == Failed(Some(401)) && Truthy(reentered) then reentered else old(ws.authToken)
    ensures Picked(fetched, leq, choice).None? ==> ws.repoOwner == old(ws.repoOwner) && ws.repoName == old(ws.repoName)
    ensures Picked(fetched, leq, choice).Some? ==>
      && ws.repoOwner == Some(SplitFullName(Picked(fetched, leq, choice).value).0)
      && ws.repoName == SplitFullName(Picked(fetched, leq, choice).value).1
    ensures provider.fired == old(provider.fired) + (if fetched == Failed(Some(401)) && Truthy(reentered) then 1 else 0)
    ensures ws.calls == old(ws.calls)
  {
    offered := [];
    match fetched {
      case Failed(status) =>
        var message := FetchReposFailed;
        if status == Some(401) {
          message := message + AuthFailedHint;
          SetToken(ws, provider, reentered);
        } else {
          message := message + RetryHint;
        }
        ws.Show(Error(message, true));
      case Fetched(repos) =>
        if |repos| == 0 {
          ws.Show(Info(NoRepos));
          return;
        }
        offered := QuickPickItems(repos, leq);
        if choice.None? {
          return;
        }
        var picked := offered[choice.value];
        var (owner, name) := SplitFullName(picked.text);
        ws.Update(RepoOwner, Some(owner));
        ws.Update(RepoName, name);
        ws.Show(Info(RepositoryChanged(picked.text)));
    }
  }

  /**
   * `githubIssues.selectRepository`. `entered` is what the user types when
   * asked for a missing token, `reread` what the second read of the token
   * returns (see `RecheckedToken`), `reentered` what the user types when
   * the listing fails with 401, `leq` stands for `localeCompare`, and
   * `choice` is the position of the picked item in the quick-pick list
   * (`None` when the pick is dismissed). Returns the quick-pick list
   * offered (empty when none is shown).
   */
  method SelectRepository(
    ws: Workspace, provider: IssueProvider,
    entered: Option<string>, reread: Option<string>, reentered: Option<string>,
    fetched: Fetch<Repo>, leq: (string, string) -> bool, choice: Option<nat>)
    returns (offered: seq<PickItem>)
    requires fetched.Fetched? && choice.Some? ==> choice.value < |fetched.data|
    modifies ws, provider
    // the repositories are requested only with a truthy token, and with that token
    ensures ws.calls == old(ws.calls) +
      if Truthy(RecheckedToken(old(ws.authToken), reread)) then [ListUserRepos(RecheckedToken(old(ws.authToken), reread))] else []
    ensures offered == if Truthy(RecheckedToken(old(ws.authToken), reread)) then Offered(fetched, leq) else []
    ensures ws.notices == old(ws.notices) + PromptNotices(old(ws.authToken), entered) +
      if Truthy(RecheckedToken(old(ws.authToken), reread)) then SelectionNotices(fetched, reentered, Picked(fetched, leq, choice)) else []
    ensures ws.writes == old(ws.writes)
      + (if !Truthy(old(ws.authToken)) && Truthy(entered) then [(AuthToken, entered)] else [])
      + (if Truthy(RecheckedToken(old(ws.authToken), reread)) then SelectionWrites(fetched, reentered, Picked(fetched, leq, choice)) else [])
    // the stored token changes only through the prompts
    ensures ws.authToken ==
      if Truthy(RecheckedToken(old(ws.authToken), reread)) && fetched == Failed(Some(401)) && Truthy(reentered) then reentered
      else PromptedToken(old(ws.authToken), entered)
    // the repository settings change only when a repository is picked
    ensures !(Truthy(RecheckedToken(old(ws.authToken), reread)) && Picked(fetched, leq, choice).Some?) ==>
      ws.repoOwner == old(ws.repoOwner) && ws.repoName == old(ws.repoName)
    ensures Truthy(RecheckedToken(old(ws.authToken), reread)) && Picked(fetched, leq, choice).Some? ==>
      && ws.repoOwner == Some(SplitFullName(Picked(fetched, leq, choice).value).0)
      && ws.repoName == SplitFullName(Picked(fetched, leq, choice).value).1
    // the view is refreshed once per token the prompts store
    ensures provider.fired == old(provider.fired)
      + (if !Truthy(old(ws.authToken)) && Truthy(entered) then 1 else 0)
      + (if Truthy(RecheckedToken(old(ws.authToken), reread)) && fetched == Failed(Some(401)) && Truthy(reentered) then 1 else 0)
  {
    var authToken := EnsureToken(ws, provider, entered, reread);
    if !Truthy(authToken) {
      return [];
    }
    ws.Send(ListUserRepos(authToken));
    offered := ApplyListing(ws, provider, reentered, fetched, leq, choice);
  }

  /**
   * The defect on a concrete run: no token is set, the user types one, the
   * configuration object still answers with the snapshot's `undefined`.
   * The token is stored, yet no repository is requested and nothing else
   * is shown.
   */
  method SnapshotAbortRun() returns (stored: Option<string>, calls: seq<RemoteCall>, notices: seq<Notice>)
    ensures stored == Some("ghp_x")
    ensures calls == []
    ensures notices == [Warning(SetTokenFirst, false), Info(TokenSaved)]
  {
    var ws := new Workspace(Snapshot(None, None, None));
    var provider := new IssueProvider();
    var _ := SelectRepository(ws, provider, Some("ghp_x"), ws.authToken, None, Fetched([]), (a, b) => true, None);
    stored, calls, notices := ws.authToken, ws.calls, ws.notices;
  }

  /**
   * The same run when the second read sees the stored token, as intended:
   * the repositories are requested with the typed token.
   */
  method FreshRecheckRun() returns (stored: Option<string>, calls: seq<RemoteCall>)
    ensures stored == Some("ghp_x")
    ensures calls == [ListUserRepos(Some("ghp_x"))]
  {
    var ws := new Workspace(Snapshot(None, None, None));
    var provider := new IssueProvider();
    var _ := SelectRepository(ws, provider, Some("ghp_x"), Some("ghp_x"), None, Fetched([]), (a, b) => true, None);
    stored, calls := ws.authToken, ws.calls;
  }

  /**
   * `githubIssues.closeIssue`: a fully identified item, a confirmation
   * answered with exactly `Yes, close issue`, then the request to close it;
   * the view is refreshed only when that request succeeds.
   */
  method CloseIssue(ws: Workspace, provider: IssueProvider, item: Option<IssueItem>, confirm: Option<string>, reply: Outcome)
    modifies ws, provider
    ensures ws.Config() == old(ws.Config()) && ws.writes == old(ws.writes)
    ensures !ValidTarget(item) ==> ws.notices == old(ws.notices) + [Error(InvalidCloseTarget, false)]
    ensures ValidTarget(item) && confirm != Some(ConfirmClose) ==>
      ws.notices == old(ws.notices) + [Warning(AskClose(item.value.issueNumber.value), true)]
    ensures ValidTarget(item) && confirm == Some(ConfirmClose) ==>
      ws.notices == old(ws.notices) + [Warning(AskClose(item.value.issueNumber.value), true)] +
        match reply
        case Done => [Info(Closed(item.value.issueNumber.value))]
        case Threw(message) => [Error("Failed to close issue: " + message, false)]
    ensures ws.calls == old(ws.calls) +
      if ValidTarget(item) && confirm == Some(ConfirmClose) then
        [UpdateIssue(old(ws.authToken), item.value.owner.value, item.value.repo.value, item.value.issueNumber.value, "closed")]
      else []
    ensures provider.fired == old(provider.fired) +
      if ValidTarget(item) && confirm == Some(ConfirmClose) && reply == Done then 1 else 0
  {
    if !ValidTarget(item) {
      ws.Show(Error(InvalidCloseTarget, false));
      return;
    }
    var it := item.value;
    ws.Show(Warning(AskClose(it.issueNumber.value), true));
    if confirm != Some(ConfirmClose) {
      return;
    }
    ws.Send(UpdateIssue(ws.authToken, it.owner.value, it.repo.value, it.issueNumber.value, "closed"));
    match reply {
      case Done =>
        ws.Show(Info(Closed(it.issueNumber.value)));
        provider.Refresh();
      case Threw(message) =>
        ws.Show(Error("Failed to close issue: " + message, false));
    }
  }

  /**
   * `githubIssues.addComment`: a fully identified item and a truthy
   * comment, then the request to post it. It never refreshes the view.
   */
  method AddComment(ws: Workspace, item: Option<IssueItem>, comment: Option<string>, reply: Outcome)
    modifies ws
    ensures ws.Config() == old(ws.Config()) && ws.writes == old(ws.writes)
    ensures ws.notices == old(ws.notices) +
      if !ValidTarget(item) then [Error(InvalidCommentTarget, false)]
      else if !Truthy(comment) then []
      else match reply
        case Done => [Info(Commented(item.value.issueNumber.value))]
        case Threw(message) => [Error("Failed to add comment: " + message, false)]
    ensures ws.calls == old(ws.calls) +
      if ValidTarget(item) && Truthy(comment) then
        [CreateComment(old(ws.authToken), item.value.owner.value, item.value.repo.value, item.value.issueNumber.value, comment.value)]
      else []
  {
    if !ValidTarget(item) {
      ws.Show(Error(InvalidCommentTarget, false));
      return;
    }
    var it := item.value;
    if !Truthy(comment) {
      return;
    }
    ws.Send(CreateComment(ws.authToken, it.owner.value, it.repo.value, it.issueNumber.value, comment.value));
    match reply {
      case Done =>
        ws.Show(Info(Commented(it.issueNumber.value)));
      case Threw(message) =>
        ws.Show(Error("Failed to add comment: " + message, false));
    }
  }
}
