/**
 * What the extension sees of its environment: the `githubIssues`
 * configuration section, the notifications it shows, and the requests it
 * sends to the GitHub REST API. The replies of those requests are not
 * computed here; they are handed to the model as inputs (`Fetch`,
 * `Outcome`).
 */
module Host {
  import opened Js

  /** The three settings of the `githubIssues` section. */
  datatype Key = AuthToken | RepoOwner | RepoName

  /** One reading of the configuration: each setting absent or a string. */
  datatype Snapshot = Snapshot(authToken: Option<string>, repoOwner: Option<string>, repoName: Option<string>)

  /** A message shown with `showInformationMessage`, `showWarningMessage` or `showErrorMessage`. */
  datatype Notice =
    | Info(text: string)
    | Warning(text: string, modal: bool)
    | Error(text: string, modal: bool)

  /** A request to the GitHub REST API, with the token the client was built with. */
  datatype RemoteCall =
    | ListOpenIssues(auth: Option<string>, owner: string, repo: string)
    | ListUserRepos(auth: Option<string>)
    | UpdateIssue(auth: Option<string>, owner: string, repo: string, number: int, state: string)
    | CreateComment(auth: Option<string>, owner: string, repo: string, number: int, body: string)

  /** The reply to a listing request: the items, or the error thrown, with its HTTP status if it has one. */
  datatype Fetch<T> = Fetched(data: seq<T>) | Failed(status: Option<int>)

  /** The reply to a mutating request: success, or the message of the error thrown. */
  datatype Outcome = Done | Threw(message: string)

  /** The workspace: the configuration store and the logs of what was shown and requested. */
  class Workspace {
    var authToken: Option<string>
    var repoOwner: Option<string>
    var repoName: Option<string>
    /** Every `config.update`, in order. */
    var writes: seq<(Key, Option<string>)>
    var notices: seq<Notice>
    var calls: seq<RemoteCall>

    constructor (initial: Snapshot)
      ensures Config() == initial
      ensures writes == [] && notices == [] && calls == []
    {
      authToken, repoOwner, repoName := initial.authToken, initial.repoOwner, initial.repoName;
      writes, notices, calls := [], [], [];
    }

    /** `config.get` of the three settings. */
    function Config(): (s: Snapshot)
      reads this
      ensures s.authToken == authToken && s.repoOwner == repoOwner && s.repoName == repoName
    {
      Snapshot(authToken, repoOwner, repoName)
    }

    /** `config.update(key, value)`; an `undefined` value removes the setting. */
    method Update(key: Key, value: Option<string>)
      modifies this
      ensures writes == old(writes) + [(key, value)]
      ensures authToken == if key == AuthToken then value else old(authToken)
      ensures repoOwner == if key == RepoOwner then value else old(repoOwner)
      ensures repoName == if key == RepoName then value else old(repoName)
      ensures notices == old(notices) && calls == old(calls)
    {
      match key {
        case AuthToken => authToken := value;
        case RepoOwner => repoOwner := value;
        case RepoName => repoName := value;
      }
      writes := writes + [(key, value)];
    }

    method Show(n: Notice)
      modifies this
      ensures notices == old(notices) + [n]
      ensures Config() == old(Config()) && writes == old(writes) && calls == old(calls)
    {
      notices := notices + [n];
    }

    method Send(c: RemoteCall)
      modifies this
      ensures calls == old(calls) + [c]
      ensures Config() == old(Config()) && writes == old(writes) && notices == old(notices)
    {
      calls := calls + [c];
    }
  }
}
