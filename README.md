# GitHub Issues in Sidebar — a Dafny model of its decision logic

The VS Code extension shows the open issues of one GitHub repository in a
side-bar tree view called `githubIssues`. It has commands to set a token,
pick the repository, close an issue, comment on an issue and run
diagnostics. All of it lives in `src/extension.ts`. This project models the
logic of that file that decides what happens:

- **Items** (`items.dfy`): the `IssueItem` constructor's rule. A truthy url
  replaces the command with `vscode.open`. The owner, repo and number are
  set only when details are given. Also here: the three kinds of row
  (prompt, message, issue entry), the `#<n>: <title>` label, and the guard
  shared by `closeIssue` and `addComment`.
- **Provider** (`provider.dfy`): `IssueProvider.getChildren` as a pure
  decision table (`Roots`, `Children`). It maps the configuration snapshot
  and the reply to the open-issues request to the rows, the request sent and
  the notices shown. The class `IssueProvider` holds the change event's fire
  count (`refresh`) and a `GetChildren` method that reads the workspace.
- **Commands** (`commands.dfy`): `setToken`, `selectRepository`,
  `closeIssue` and `addComment` as methods. Each one updates a `Workspace`:
  the configuration store, the log of configuration writes, the notices
  shown and the API requests sent. The state-changing commands also update
  the provider's refresh counter.
- **Repos** (`repos.dfy`): the quick-pick items of `selectRepository`. It
  maps repositories to `{label, description}`, sorts them by an abstract
  comparator standing for `localeCompare`, and splits the chosen
  `full_name` at `/`.
- **Diagnose** (`diagnose.dfy`): the `x-oauth-scopes` check, the private
  and public counts, and the first-ten slice of the `diagnose` command.
- **Js** (`js.dfy`) and **Host** (`host.dfy`): the JavaScript semantics
  used (truthiness, `${n}`, `split`, `trim`) and the environment (settings,
  notices, API requests, API replies as inputs).

Every API reply (issue list, repository list, success or failure of a
mutation) and everything the user types, picks or confirms is a parameter.

In these points the model follows the code as written:
- the 401 prompt reads `Authentication failed. Set new Token?`;
- `addComment` never refreshes the view;
- only HTTP status 401 is told apart from other failures;
- the repository owner and name are two separate `config.update` writes,
  and the name is removed when the label has no `/`;
- on a 401 while listing repositories, `selectRepository` runs `setToken`
  again before showing its error, so the token can change there.

## Model

| member | source | states |
|---|---|---|
| `Items.NewIssueItem` | src/extension.ts:16-46 | a truthy url makes the command `vscode.open` with that url, otherwise the given command is kept; identity fields are set exactly when details are given; context value is `issue` |
| `Items.ToNodeToTreeItem` | src/extension.ts:327-391 | the item built for each kind of row (prompt, message, issue entry) determines that row |
| `Items.ValidTargetOfNode` | src/extension.ts:229-232 | an item passes the close/comment guard exactly when it is an issue entry with non-zero number and non-empty owner and repo |
| `Items.ParseLabelOfLabel` | src/extension.ts:366 | the label `#<n>: <title>` reads back as exactly that number and title |
| `Items.ToTreeItems` | src/extension.ts:364-375 | one item per row, in order |
| `Js.ParseIntToString` | src/extension.ts:366 | the decimal rendering of an integer reads back as the same integer |
| `Js.NatToString` | src/extension.ts:366 | the rendering is a non-empty string of digits without a leading zero |
| `Js.JoinSplit` | src/extension.ts:137 | joining the pieces of `split` with the separator gives back the string |
| `Js.SplitJoin` | src/extension.ts:173 | splitting a join of separator-free pieces gives back the pieces |
| `Js.SplitFirst` | src/extension.ts:137 | the first piece is the text before the first separator; a second piece exists exactly when the separator occurs |
| `Js.TrimPadded` | src/extension.ts:173 | `trim` removes exactly the white space around a core with no white space at its ends |
| `Provider.Entries` | src/extension.ts:364-375 | one issue entry per issue, same order, label `#<n>: <title>`, url, owner, repo and number copied, tooltip `[owner/repo] #n` plus title |
| `Provider.Roots` | src/extension.ts:320-392 | never empty; no token gives exactly the set-token prompt; token without owner or name gives exactly the select-repository prompt; a request exactly when all three are set; empty reply gives `No open issues found.`; a non-empty reply gives the entries; 401 gives the set-token prompt and no notice; any other failure gives one error notice and one `Error fetching issues...` message |
| `Provider.Children` | src/extension.ts:314-318 | a given element has no children, and nothing is requested or shown; the root rows are never empty |
| `Provider.RootsWithoutRequest` | src/extension.ts:326-348 | when no request is made, the reply has no influence on the result |
| `Provider.RootLabelsIdentifyIssues` | src/extension.ts:364-375 | each entry's label reads back as its issue's number and title |
| `Provider.RootTargets` | src/extension.ts:364-375 | the rows accepted by close/comment are exactly the entries of a successful fetch whose issue number is not 0 |
| `Provider.OneIssueExample` | src/extension.ts:364-375 | one issue `#3` in `acme/widgets` gives one entry labelled `#3: Crash on load` with that url and identity |
| `Provider.IssueProvider.Refresh` | src/extension.ts:306-308 | firing the change event once |
| `Provider.IssueProvider.GetChildren` | src/extension.ts:314-393 | returns the items of `Children` for the current settings, logs its request and notice, writes no setting |
| `Host.Workspace.Update` | src/extension.ts:139-140 | a write sets exactly one setting and is logged in order |
| `Repos.PickItems` | src/extension.ts:121-125 | one item per repository, label is the full name, description `🔒 Private` or `🌐 Public` after the `private` flag |
| `Repos.SortByText` | src/extension.ts:126 | the sorted list is a permutation of its input |
| `Repos.SortByTextSorted` | src/extension.ts:126 | under a total preorder the sorted list is ordered by label |
| `Repos.QuickPickItemsSpec` | src/extension.ts:121-126 | the quick-pick list is sorted by label and holds exactly the mapped repositories |
| `Repos.SplitFullNameSpec` | src/extension.ts:137 | owner is the text before the first `/`; the name exists exactly when there is a `/` and is the text up to the next `/` |
| `Repos.SplitFullNameOfPair` | src/extension.ts:137 | `owner/name` gives back its owner and name |
| `Diagnose.MissingRepoScopeOfList` | src/extension.ts:173 | for a header of comma-separated pieces, the warning is given exactly when no trimmed piece equals `repo` |
| `Diagnose.RepoScopeFound` | src/extension.ts:173 | `repo` with white space around it, anywhere in the list, prevents the warning |
| `Diagnose.EmptyHeaderHasNoRepo` | src/extension.ts:173 | the empty header names no `repo` scope |
| `Diagnose.FilterPartition` | src/extension.ts:193-194 | private and public repositories together are all of them, each once |
| `Diagnose.Summarize` | src/extension.ts:173-197 | private count is the number of private repositories, public count (total minus private) the number of public ones, and they add up to the total; at most 10 listed, a prefix of the list |
| `Commands.SetToken` | src/extension.ts:56-68 | a truthy token is stored, acknowledged and the view refreshed; anything else changes nothing |
| `Commands.EnsureToken` | src/extension.ts:72-84 | without a token: warn, run `setToken` (which stores a truthy typed token), and go on with what the second read of the configuration object returns |
| `Commands.EnsureTokenFresh` | src/extension.ts:72-84 | the intended check: without a token, warn and run `setToken`, then go on with the stored token, which is truthy exactly when a token was set or typed |
| `Commands.SnapshotRecheckAborts` | src/extension.ts:71-82 | if the second read returns the snapshot's value, a typed token is stored but the check still finds no token |
| `Commands.FreshRecheckSeesToken` | src/extension.ts:76-82 | if the second read sees the stored token, the command goes on with the token of the intended check |
| `Commands.SnapshotAbortRun` | src/extension.ts:71-82 | a concrete run without a token: the typed token is stored, and no repository request follows |
| `Commands.FreshRecheckRun` | src/extension.ts:71-91 | the same run with a second read that sees the write requests the repositories with the typed token |
| `Commands.ApplyListing` | src/extension.ts:103-142 | 401: run `setToken`, then a modal error; other failure: modal error; empty list: info and stop; otherwise offer the sorted items, and if one is picked write owner then name split from its label and announce it |
| `Commands.SelectRepository` | src/extension.ts:70-143 | the repositories are requested exactly when the token read (again) is truthy, with that token; otherwise no repository setting is written; repository settings change only when a repository is picked; full new state of settings, writes, notices, requests and refresh count |
| `Commands.CloseIssue` | src/extension.ts:228-259 | an invalid item gives an error and no request or refresh; only the answer `Yes, close issue` sends the update with state `closed`; refresh exactly when that update succeeds |
| `Commands.AddComment` | src/extension.ts:261-289 | an invalid item gives an error and no request; an empty comment sends nothing; otherwise one comment request; never refreshes (it cannot touch the provider) |

## Left out

- Octokit and `paginate` are not modelled. They are network calls. Their
  replies are inputs: `Fetch` (items, or the error with its optional HTTP
  status) and `Outcome` (success, or the error's message). A paginated
  listing is logged as one request.
- The collation of `localeCompare` is not modelled. The comparator is a
  parameter `leq`, read as `localeCompare(a, b) <= 0`. The sortedness
  lemmas require it to be a total preorder.
- Repos.SortByText: the contract states only the permutation and (with
  `SortByTextSorted`) the order. It does not state how items with equal
  labels are ordered, because no stability promise of `Array.prototype.sort`
  was needed for a property.
- VS Code UI is not modelled: input boxes, the quick pick, progress,
  icons, `collapsibleState` (always `None`), tooltip rendering and
  `Uri.parse`, which stays a string. Modal and plain notifications become
  `Notice` values, including the close confirmation dialog.
- The diagnose command's sequence of calls is not modelled: its own
  early return without a token, the rate-limit and user requests, the
  transcript lines and the error dump. Only its scope check, counts and
  first-ten slice are modelled.
- `activate`/`deactivate`, command registration, `getTreeItem` (returns
  its argument) and `console` logging are not modelled.
- The configuration listener (src/extension.ts:294-298) is not modelled.
  It refreshes whenever a `githubIssues` setting changes, so each write a
  command makes also refreshes the view. `fired` counts only direct
  `refresh()` calls.
- Async interleaving is not modelled. Each handler is one sequential run,
  and overlapping refreshes are out of scope.
- Whether VS Code's configuration object reflects writes made after it
  was taken is host behaviour. It is not modelled: `selectRepository`'s
  second read of the token is the input `reread` (see "## Findings").
- JavaScript numbers are modelled as unbounded integers. `NaN`, fractions
  and precision loss beyond 2^53 are not modelled, since issue numbers are
  integers.
- `IssueItem` is a value, not an object. The source sets all its fields
  while building it (the tooltip right after) and never changes them.

## Findings

| source | as written | input that shows it | evidently intended | confidence | as-written member | corrected member |
|---|---|---|---|---|---|---|
| src/extension.ts:71-82 | after prompting for a missing token, the token is read again from the `WorkspaceConfiguration` object taken at line 71, before the prompt; that object holds the values of when it was taken | no token set, the user types `ghp_x`: `setToken` stores it, the second read still returns `undefined`, and the command stops at the check on lines 81-82 without listing repositories | the second read sees the token just stored (a fresh `getConfiguration`), so the command goes on with the typed token | not executed; depends on the host's configuration snapshot semantics | `Commands.SnapshotRecheckAborts`, `Commands.SnapshotAbortRun` | `Commands.EnsureTokenFresh`, `Commands.FreshRecheckSeesToken`, `Commands.FreshRecheckRun` |

`Commands.SelectRepository` takes the second read as an input, so it covers
both readings: the code as written under a snapshot host
(`reread` equal to the first read) and the intended flow (`reread` equal to
the stored token, where `FreshRecheckSeesToken` shows it agrees with
`EnsureTokenFresh`).
