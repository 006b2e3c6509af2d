/**
 * The pure steps of the `githubIssues.selectRepository` command: turning
 * the fetched repositories into quick-pick items, ordering them by label,
 * and reading the owner and the name back out of the chosen label.
 */
module Repos {
  import opened Js

  /** A repository as `GET /user/repos` returns it (`full_name`, `private`). */
  datatype Repo = Repo(fullName: string, isPrivate: bool)

  /** A quick-pick item `{ label, description }`. */
  datatype PickItem = PickItem(text: string, description: string)

  const PrivateDescription := "\U{1F512} Private"
  const PublicDescription := "\U{1F310} Public"

  /** `repos.map(repo => ({ label: repo.full_name, description: ... }))`. */
  function PickItems(repos: seq<Repo>): (items: seq<PickItem>)
    ensures |items| == |repos|
    ensures forall i :: 0 <= i < |repos| ==>
      && items[i].text == repos[i].fullName
      && items[i].description == (if repos[i].isPrivate then PrivateDescription else PublicDescription)
  {
    if repos == [] then []
    else
      var repo := repos[0];
      [PickItem(repo.fullName, if repo.isPrivate then PrivateDescription else PublicDescription)]
        + PickItems(repos[1..])
  }

  /**
   * What the model requires of `localeCompare`, read as
   * `leq(a, b) == (a.localeCompare(b) <= 0)`: any two labels compare, and
   * the comparison is transitive.
   */
  ghost predicate TotalPreorder(leq: (string, string) -> bool) {
    && (forall a, b :: leq(a, b) || leq(b, a))
    && (forall a, b, c :: leq(a, b) && leq(b, c) ==> leq(a, c))
  }

  ghost predicate SortedByText(items: seq<PickItem>, leq: (string, string) -> bool) {
    forall i, j :: 0 <= i < j < |items| ==> leq(items[i].text, items[j].text)
  }

  /** Puts `x` in front of the first item it does not come after. */
  function Insert(x: PickItem, s: seq<PickItem>, leq: (string, string) -> bool): (r: seq<PickItem>)
    ensures multiset(r) == multiset(s) + multiset{x}
  {
    if s == [] then [x]
    else if leq(x.text, s[0].text) then [x] + s
    else
      assert s == [s[0]] + s[1..];
      [s[0]] + Insert(x, s[1..], leq)
  }

  /** `.sort((a, b) => a.label.localeCompare(b.label))`, as an insertion sort. */
  function SortByText(s: seq<PickItem>, leq: (string, string) -> bool): (r: seq<PickItem>)
    ensures multiset(r) == multiset(s)
  {
    if s == [] then []
    else
      assert s == [s[0]] + s[1..];
      Insert(s[0], SortByText(s[1..], leq), leq)
  }

  lemma {:induction false} InsertSorted(x: PickItem, s: seq<PickItem>, leq: (string, string) -> bool)
    requires TotalPreorder(leq)
    requires SortedByText(s, leq)
    ensures SortedByText(Insert(x, s, leq), leq)
  {
    if s != [] && !leq(x.text, s[0].text) {
      var t := Insert(x, s[1..], leq);
      InsertSorted(x, s[1..], leq);
      forall k | 0 <= k < |t|
        ensures leq(s[0].text, t[k].text)
      {
        assert t[k] in multiset(t);
        if t[k] != x {
          assert t[k] in multiset(s[1..]);
          var j :| 0 <= j < |s[1..]| && s[1..][j] == t[k];
          assert s[1 + j] == t[k];
        }
      }
      var r := [s[0]] + t;
      forall i, j | 0 <= i < j < |r|
        ensures leq(r[i].text, r[j].text)
      {
        if i > 0 {
          assert r[i] == t[i - 1] && r[j] == t[j - 1];
        }
      }
    } else if s != [] {
      var r := [x] + s;
      forall i, j | 0 <= i < j < |r|
        ensures leq(r[i].text, r[j].text)
      {
        if i == 0 && j > 1 {
          assert leq(s[0].text, s[j - 1].text);
        }
      }
    }
  }

  lemma {:induction false} SortByTextSorted(s: seq<PickItem>, leq: (string, string) -> bool)
    requires TotalPreorder(leq)
    ensures SortedByText(SortByText(s, leq), leq)
  {
    if s != [] {
      SortByTextSorted(s[1..], leq);
      InsertSorted(s[0], SortByText(s[1..], leq), leq);
    }
  }

  /** The quick-pick list: one item per repository, ordered by label. */
  function QuickPickItems(repos: seq<Repo>, leq: (string, string) -> bool): (items: seq<PickItem>)
    ensures multiset(items) == multiset(PickItems(repos))
    ensures |items| == |repos|
  {
    var items := SortByText(PickItems(repos), leq);
    assert |items| == |multiset(items)|;
    items
  }

  /**
   * The quick-pick list is a permutation of the fetched repositories, each
   * described by its visibility, and is ordered by the comparator.
   */
  lemma QuickPickItemsSpec(repos: seq<Repo>, leq: (string, string) -> bool)
    requires TotalPreorder(leq)
    ensures SortedByText(QuickPickItems(repos, leq), leq)
    ensures forall item :: item in QuickPickItems(repos, leq) <==>
      exists i :: 0 <= i < |repos| && item == PickItem(repos[i].fullName, if repos[i].isPrivate then PrivateDescription else PublicDescription)
  {
    SortByTextSorted(PickItems(repos), leq);
    var items := QuickPickItems(repos, leq);
    var mapped := PickItems(repos);
    forall item
      ensures item in items <==> item in mapped
    {
      assert item in items <==> item in multiset(items);
      assert item in mapped <==> item in multiset(mapped);
    }
  }

  /** `const [owner, name] = label.split('/')`; `name` is `undefined` when there is no `/`. */
  function SplitFullName(text: string): (string, Option<string>) {
    var parts := Split(text, '/');
    (parts[0], if |parts| >= 2 then Some(parts[1]) else None)
  }

  /**
   * The owner is the text before the first `/`; the name exists exactly
   * when there is a `/`, and is the text between the first `/` and the next.
   */
  lemma SplitFullNameSpec(text: string)
    ensures SplitFullName(text).0 == text[..IndexOf(text, '/')]
    ensures SplitFullName(text).1.Some? <==> '/' in text
    ensures '/' in text ==>
      var rest := text[IndexOf(text, '/') + 1..];
      SplitFullName(text).1 == Some(rest[..IndexOf(rest, '/')])
  {
    SplitFirst(text, '/');
    if '/' in text {
      var rest := text[IndexOf(text, '/') + 1..];
      SplitFirst(rest, '/');
      assert Split(text, '/')[1] == Split(rest, '/')[0];
    }
  }

  /** A full name `owner/name` gives back its owner and its name. */
  lemma SplitFullNameOfPair(owner: string, name: string)
    requires '/' !in owner && '/' !in name
    ensures SplitFullName(owner + "/" + name) == (owner, Some(name))
  {
    SplitJoin([owner, name], '/');
    assert Join([owner, name], '/') == owner + "/" + name;
  }
}
