/**
 * The rows of the issues tree. `IssueItem` is the record the extension
 * hands to VS Code (every field is set while it is built and never
 * changed afterwards); `Node` says which of the three kinds of row an item
 * is: a prompt bound to a command, a bare message, or an issue entry that
 * knows which issue it stands for.
 */
module Items {
  import opened Js

  /** A `vscode.Command`: its id, title and arguments (a URI as its string form). */
  datatype Command = Command(command: string, title: string, arguments: seq<string>)

  /** The `issueDetails` argument of the `IssueItem` constructor. */
  datatype Details = Details(owner: string, repo: string, issueNumber: int)

  /** An `IssueItem`: its label (`text`), command, url, context value, issue identity and tooltip. */
  datatype IssueItem = IssueItem(
    text: string,
    command: Option<Command>,
    issueUrl: Option<string>,
    contextValue: string,
    owner: Option<string>,
    repo: Option<string>,
    issueNumber: Option<int>,
    tooltip: Option<string>)

  const OpenCommandId := "vscode.open"

  /** The command that opens an issue's page in the browser. */
  function OpenCommand(url: string): Command {
    Command(OpenCommandId, "Open Issue", [url])
  }

  /**
   * The `IssueItem` constructor: a truthy url replaces the given command by
   * one that opens the url, and the identity fields are filled in only when
   * details are given. Every item gets the context value `issue`.
   */
  function NewIssueItem(text: string, command: Option<Command>, issueUrl: Option<string>, details: Option<Details>): (it: IssueItem)
    ensures it.text == text && it.issueUrl == issueUrl && it.contextValue == "issue" && it.tooltip.None?
    ensures Truthy(issueUrl) ==> it.command == Some(OpenCommand(issueUrl.value))
    ensures !Truthy(issueUrl) ==> it.command == command
    ensures details.None? ==> it.owner.None? && it.repo.None? && it.issueNumber.None?
    ensures details.Some? ==>
      && it.owner == Some(details.value.owner)
      && it.repo == Some(details.value.repo)
      && it.issueNumber == Some(details.value.issueNumber)
  {
    var cmd := if Truthy(issueUrl) then Some(OpenCommand(issueUrl.value)) else command;
    match details
    case None => IssueItem(text, cmd, issueUrl, "issue", None, None, None, None)
    case Some(d) => IssueItem(text, cmd, issueUrl, "issue", Some(d.owner), Some(d.repo), Some(d.issueNumber), None)
  }

  /** The three kinds of row the tree shows. */
  datatype Node =
    | Prompt(text: string, command: string, title: string)
    | Message(text: string)
    | Entry(text: string, url: string, owner: string, repo: string, number: int, tooltip: string)

  /** The `IssueItem` the source builds for a row of each kind. */
  function ToTreeItem(n: Node): IssueItem {
    match n
    case Prompt(text, command, title) => NewIssueItem(text, Some(Command(command, title, [])), None, None)
    case Message(text) => NewIssueItem(text, None, None, None)
    case Entry(text, url, owner, repo, number, tooltip) =>
      NewIssueItem(text, None, Some(url), Some(Details(owner, repo, number))).(tooltip := Some(tooltip))
  }

  /** Which kind of row an item is: an identified issue, a prompt, or a message. */
  function ToNode(it: IssueItem): Node {
    if it.owner.Some? && it.repo.Some? && it.issueNumber.Some? then
      Entry(it.text, it.issueUrl.GetOr(""), it.owner.value, it.repo.value, it.issueNumber.value, it.tooltip.GetOr(""))
    else if it.command.Some? then
      Prompt(it.text, it.command.value.command, it.command.value.title)
    else
      Message(it.text)
  }

  /** Building the item of a row loses nothing about the row. */
  lemma ToNodeToTreeItem(n: Node)
    ensures ToNode(ToTreeItem(n)) == n
  {
  }

  /** The items of a sequence of rows, in order. */
  function ToTreeItems(ns: seq<Node>): (items: seq<IssueItem>)
    ensures |items| == |ns|
    ensures forall i :: 0 <= i < |ns| ==> items[i] == ToTreeItem(ns[i])
  {
    if ns == [] then [] else [ToTreeItem(ns[0])] + ToTreeItems(ns[1..])
  }

  /**
   * The guard shared by `closeIssue` and `addComment`: an item is used only
   * when it is given and its issue number, owner and repo are all truthy.
   */
  predicate ValidTarget(item: Option<IssueItem>) {
    && item.Some?
    && TruthyNumber(item.value.issueNumber)
    && Truthy(item.value.owner)
    && Truthy(item.value.repo)
  }

  /** Only an issue entry with a non-zero number, an owner and a repo passes the guard. */
  lemma ValidTargetOfNode(n: Node)
    ensures ValidTarget(Some(ToTreeItem(n))) <==> n.Entry? && n.number != 0 && n.owner != "" && n.repo != ""
  {
  }

  /** The label of an issue row: `#<number>: <title>`. */
  function Label(number: int, title: string): string {
    "#" + IntToString(number) + ": " + title
  }

  /** Reads the issue number and the title back out of a row label. */
  function ParseLabel(s: string): Option<(int, string)> {
    if |s| == 0 || s[0] != '#' then None
    else
      var body := s[1..];
      var k := IndexOf(body, ':');
      if k + 2 <= |body| && body[k..k + 2] == ": " then
        match ParseInt(body[..k])
        case Some(n) => Some((n, body[k + 2..]))
        case None => None
      else None
  }

  /** A label determines the issue number and the title it was made from. */
  lemma {:induction false} ParseLabelOfLabel(number: int, title: string)
    ensures ParseLabel(Label(number, title)) == Some((number, title))
  {
    var digits := IntToString(number);
    var s := Label(number, title);
    var body := s[1..];
    assert body == digits + (": " + title);
    assert ':' !in digits by {
      forall i | 0 <= i < |digits| ensures digits[i] != ':' { }
    }
    IndexOfAppend(digits, ": " + title, ':');
    var k := |digits|;
    assert body[..k] == digits;
    assert body[k..k + 2] == ": ";
    assert body[k + 2..] == title;
    ParseIntToString(number);
  }
}
