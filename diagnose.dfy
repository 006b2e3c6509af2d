/**
 * The decisions inside the `githubIssues.diagnose` command: whether the
 * token's `x-oauth-scopes` header grants `repo`, how many of the accessible
 * repositories are private and public, and which of them are listed.
 */
module Diagnose {
  import opened Js
  import opened Repos

  /** `pieces.map(s => s.trim())`. */
  function TrimAll(pieces: seq<string>): (r: seq<string>)
    ensures |r| == |pieces|
    ensures forall i :: 0 <= i < |pieces| ==> r[i] == Trim(pieces[i])
  {
    seq(|pieces|, i requires 0 <= i < |pieces| => Trim(pieces[i]))
  }

  /** `scopes.split(',').map(s => s.trim())`. */
  function ScopeNames(header: string): seq<string> {
    TrimAll(Split(header, ','))
  }

  /** The condition under which the missing-`repo`-scope warning is shown. */
  predicate MissingRepoScope(scopes: Option<string>) {
    !Truthy(scopes) || "repo" !in ScopeNames(scopes.value)
  }

  /**
   * For a header listing the given comma-free pieces, the warning is shown
   * exactly when no piece trims to `repo`.
   */
  lemma MissingRepoScopeOfList(pieces: seq<string>)
    requires |pieces| >= 1
    requires forall i :: 0 <= i < |pieces| ==> ',' !in pieces[i]
    ensures MissingRepoScope(Some(Join(pieces, ','))) <==> !exists i :: 0 <= i < |pieces| && Trim(pieces[i]) == "repo"
  {
    NamesOfJoin(pieces);
    EmptyHeaderHasNoRepo();
    RepoInTrimAll(pieces);
  }

  lemma RepoInTrimAll(pieces: seq<string>)
    ensures "repo" in TrimAll(pieces) <==> exists i :: 0 <= i < |pieces| && Trim(pieces[i]) == "repo"
  {
    var names := TrimAll(pieces);
    if "repo" in names {
      var i :| 0 <= i < |names| && names[i] == "repo";
    }
  }

  lemma NamesOfJoin(pieces: seq<string>)
    requires |pieces| >= 1
    requires forall i :: 0 <= i < |pieces| ==> ',' !in pieces[i]
    ensures ScopeNames(Join(pieces, ',')) == TrimAll(pieces)
  {
    SplitJoin(pieces, ',');
  }

  /** An empty header names no scope at all, so testing it for `repo` too gives the warning. */
  lemma EmptyHeaderHasNoRepo()
    ensures "repo" !in ScopeNames("")
  {
    assert Split("", ',') == [""];
    assert TrimEnd(TrimStart("")) == "";
    assert ScopeNames("") == [""];
  }

  /** Padding around a scope name does not hide it. */
  lemma RepoScopeFound(before: seq<string>, pad: string, after: seq<string>, pad': string)
    requires AllWhitespace(pad) && AllWhitespace(pad')
    requires forall i :: 0 <= i < |before| ==> ',' !in before[i]
    requires forall i :: 0 <= i < |after| ==> ',' !in after[i]
    ensures !MissingRepoScope(Some(Join(before + [pad + "repo" + pad'] + after, ',')))
  {
    var piece := pad + "repo" + pad';
    PaddedHasNoComma(pad, pad');
    TrimPadded(pad, "repo", pad');
    ListedScopeFound(before, piece, after);
  }

  lemma ListedScopeFound(before: seq<string>, piece: string, after: seq<string>)
    requires ',' !in piece && Trim(piece) == "repo"
    requires forall i :: 0 <= i < |before| ==> ',' !in before[i]
    requires forall i :: 0 <= i < |after| ==> ',' !in after[i]
    ensures !MissingRepoScope(Some(Join(before + [piece] + after, ',')))
  {
    var pieces := before + [piece] + after;
    CommaFreeConcat(before, piece, after);
    assert pieces[|before|] == piece;
    MissingRepoScopeOfList(pieces);
  }

  lemma CommaFreeConcat(before: seq<string>, piece: string, after: seq<string>)
    requires ',' !in piece
    requires forall i :: 0 <= i < |before| ==> ',' !in before[i]
    requires forall i :: 0 <= i < |after| ==> ',' !in after[i]
    ensures forall i :: 0 <= i < |before + [piece] + after| ==> ',' !in (before + [piece] + after)[i]
  {
    var pieces := before + [piece] + after;
    forall i | 0 <= i < |pieces| ensures ',' !in pieces[i] {
      if i < |before| { assert pieces[i] == before[i]; }
      else if i > |before| { assert pieces[i] == after[i - |before| - 1]; }
    }
  }

  lemma PaddedHasNoComma(pad: string, pad': string)
    requires AllWhitespace(pad) && AllWhitespace(pad')
    ensures ',' !in pad + "repo" + pad'
  {
    var piece := pad + "repo" + pad';
    forall i | 0 <= i < |piece| ensures piece[i] != ',' {
      if i < |pad| {
        assert piece[i] == pad[i] && IsWhitespace(pad[i]);
      } else if i >= |pad| + 4 {
        assert piece[i] == pad'[i - |pad| - 4] && IsWhitespace(pad'[i - |pad| - 4]);
      } else {
        assert piece[i] == "repo"[i - |pad|];
      }
    }
  }

  /**
   * The repositories whose `private` flag is `wantPrivate`, in order. With
   * `true` this is `repos.filter(repo => repo.private)`; with `false` it is
   * this model's own account of the public ones, which the source only
   * counts as the total minus the private ones.
   */
  function Filter(repos: seq<Repo>, wantPrivate: bool): (r: seq<Repo>)
    ensures |r| <= |repos|
    ensures forall x :: x in r <==> x in repos && x.isPrivate == wantPrivate
  {
    if repos == [] then []
    else if repos[0].isPrivate == wantPrivate then [repos[0]] + Filter(repos[1..], wantPrivate)
    else Filter(repos[1..], wantPrivate)
  }

  /** The private and the public repositories together are all of them, each once. */
  lemma {:induction false} FilterPartition(repos: seq<Repo>)
    ensures multiset(Filter(repos, true)) + multiset(Filter(repos, false)) == multiset(repos)
  {
    if repos != [] {
      FilterPartition(repos[1..]);
      assert repos == [repos[0]] + repos[1..];
    }
  }

  /** What the diagnostics report about the scopes and the accessible repositories. */
  datatype Summary = Summary(missingRepoScope: bool, publicCount: nat, privateCount: nat, listed: seq<Repo>)

  function Summarize(scopes: Option<string>, repos: seq<Repo>): (s: Summary)
    ensures s.missingRepoScope == MissingRepoScope(scopes)
    ensures s.privateCount == |Filter(repos, true)|
    ensures s.publicCount == |Filter(repos, false)|
    ensures s.publicCount + s.privateCount == |repos|
    ensures |s.listed| == (if |repos| < 10 then |repos| else 10)
    ensures s.listed == repos[..|s.listed|]
  {
    FilterPartition(repos);
    assert |multiset(Filter(repos, true)) + multiset(Filter(repos, false))| == |multiset(repos)|;
    var privateCount := |Filter(repos, true)|;
    Summary(MissingRepoScope(scopes), |repos| - privateCount, privateCount, repos[..if |repos| < 10 then |repos| else 10])
  }
}
