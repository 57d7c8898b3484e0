/**
 * The GitHub connection dialog: a simulated connect, a toggle-based
 * selection of repository ids, and the start of a scan over the selection.
 */
module GitHub {

  datatype Repository = Repository(
    id: string,
    name: string,
    fullName: string,
    description: string,
    language: string,
    isPrivate: bool,
    lastUpdated: string)

  /** The toasts the dialog raises. */
  datatype Notice =
    | Connected
    | NoneSelected
    | ScanningStarted(count: nat)

  /** What pressing "start scanning" did. */
  datatype ScanStart = Rejected | Started(names: seq<string>)

  /** The three repositories a successful connect lists. */
  function MockRepositories(): seq<Repository> {
    [ Repository("1", "defensis-web-core", "user/defensis-web-core",
        "Main DefenSys web application", "TypeScript", false, "2 hours ago"),
      Repository("2", "api-backend", "user/api-backend",
        "DefenSys API backend service", "Python", true, "1 day ago"),
      Repository("3", "mobile-app", "user/mobile-app",
        "DefenSys mobile application", "React Native", false, "3 days ago") ]
  }

  predicate NoDuplicates(s: seq<string>) {
    forall i, j :: 0 <= i < j < |s| ==> s[i] != s[j]
  }

  /** The ids of a repository list, in list order. */
  function Ids(repos: seq<Repository>): seq<string> {
    seq(|repos|, k requires 0 <= k < |repos| => repos[k].id)
  }

  /** The selection with every occurrence of `x` filtered out. */
  function RemoveAll(s: seq<string>, x: string): (r: seq<string>)
    ensures multiset(r) == multiset(s)[x := 0]
    ensures forall y :: y in r <==> y in s && y != x
  {
    if s == [] then []
    else
      assert s == [s[0]] + s[1..];
      (if s[0] == x then [] else [s[0]]) + RemoveAll(s[1..], x)
  }

  /** Clicking a repository: remove its id if selected, otherwise append it. */
  function Toggle(selected: seq<string>, id: string): (r: seq<string>)
    ensures id !in selected ==> r == selected + [id]
    ensures id in selected ==> multiset(r) == multiset(selected)[id := 0]
    ensures id in r <==> id !in selected
    ensures forall x :: x != id ==> (x in r <==> x in selected)
  {
    if id in selected then RemoveAll(selected, id) else selected + [id]
  }

  /** The full names of the selected repositories, in repository-list order. */
  function SelectedNames(repos: seq<Repository>, selected: seq<string>): (names: seq<string>)
    ensures |names| <= |repos|
    ensures forall n :: n in names <==> exists r :: r in repos && r.id in selected && r.fullName == n
  {
    if repos == [] then []
    else
      assert repos == [repos[0]] + repos[1..];
      (if repos[0].id in selected then [repos[0].fullName] else []) + SelectedNames(repos[1..], selected)
  }

  /** The scanned names follow the repository list: the names of a concatenation are the
      names of its parts, in order. */
  lemma {:induction false} SelectedNamesAppend(a: seq<Repository>, b: seq<Repository>, selected: seq<string>)
    ensures SelectedNames(a + b, selected) == SelectedNames(a, selected) + SelectedNames(b, selected)
  {
    if a == [] {
      assert a + b == b;
    } else {
      assert (a + b)[0] == a[0];
      assert (a + b)[1..] == a[1..] + b;
      var head := if a[0].id in selected then [a[0].fullName] else [];
      assert SelectedNames(a + b, selected) == head + SelectedNames(a[1..] + b, selected);
      assert SelectedNames(a, selected) == head + SelectedNames(a[1..], selected);
      SelectedNamesAppend(a[1..], b, selected);
    }
  }

  /** One repository contributes its full name exactly when its id is selected. */
  lemma SelectedNamesOne(r: Repository, selected: seq<string>)
    ensures SelectedNames([r], selected) == if r.id in selected then [r.fullName] else []
  {
  }

  // ---------------------------------------------------------------------
  // Properties of the selection
  // ---------------------------------------------------------------------

  lemma {:induction false} RemoveAllAbsent(s: seq<string>, x: string)
    requires x !in s
    ensures RemoveAll(s, x) == s
  {
    if s != [] {
      RemoveAllAbsent(s[1..], x);
    }
  }

  lemma {:induction false} RemoveAllAppended(s: seq<string>, x: string)
    ensures RemoveAll(s + [x], x) == RemoveAll(s, x)
  {
    if s == [] {
      assert RemoveAll([x], x) == [] + RemoveAll([], x);
    } else {
      assert (s + [x])[1..] == s[1..] + [x];
      RemoveAllAppended(s[1..], x);
    }
  }

  /** Filtering an id out of a duplicate-free selection only shrinks it by one. */
  lemma {:induction false} RemoveAllShrinksByOne(s: seq<string>, x: string)
    requires NoDuplicates(s) && x in s
    ensures |RemoveAll(s, x)| == |s| - 1
  {
    if s[0] == x {
      assert x !in s[1..];
      RemoveAllAbsent(s[1..], x);
    } else {
      RemoveAllShrinksByOne(s[1..], x);
    }
  }

  lemma {:induction false} RemoveAllKeepsNoDuplicates(s: seq<string>, x: string)
    requires NoDuplicates(s)
    ensures NoDuplicates(RemoveAll(s, x))
  {
    if s != [] {
      RemoveAllKeepsNoDuplicates(s[1..], x);
      var rest := RemoveAll(s[1..], x);
      assert s[0] !in s[1..];
      assert s[0] !in rest;
    }
  }

  /** Toggling an id twice restores the membership set, and the exact sequence
      when the id was not selected to begin with. */
  lemma ToggleTwice(s: seq<string>, id: string)
    ensures forall x :: x in Toggle(Toggle(s, id), id) <==> x in s
    ensures id !in s ==> Toggle(Toggle(s, id), id) == s
  {
    if id !in s {
      RemoveAllAppended(s, id);
      RemoveAllAbsent(s, id);
    }
  }

  /** A selection without duplicates keeps none after a toggle. */
  lemma ToggleKeepsNoDuplicates(s: seq<string>, id: string)
    requires NoDuplicates(s)
    ensures NoDuplicates(Toggle(s, id))
  {
    if id in s {
      RemoveAllKeepsNoDuplicates(s, id);
    }
  }

  /** The scanned names depend only on which repository ids are selected. */
  lemma {:induction false} SelectedNamesByMembership(repos: seq<Repository>, s1: seq<string>, s2: seq<string>)
    requires forall k :: 0 <= k < |repos| ==> (repos[k].id in s1 <==> repos[k].id in s2)
    ensures SelectedNames(repos, s1) == SelectedNames(repos, s2)
  {
    if repos != [] {
      assert repos[0].id in s1 <==> repos[0].id in s2;
      SelectedNamesByMembership(repos[1..], s1, s2);
    }
  }

  /** Selecting every repository scans all of them, in list order. */
  lemma {:induction false} SelectAllInOrder(repos: seq<Repository>, selected: seq<string>)
    requires forall k :: 0 <= k < |repos| ==> repos[k].id in selected
    ensures SelectedNames(repos, selected) == seq(|repos|, k requires 0 <= k < |repos| => repos[k].fullName)
  {
    if repos != [] {
      SelectAllInOrder(repos[1..], selected);
    }
  }

  /** Stated apart so that no index into `s` is checked where the facts in scope already
      rule out a non-empty `s`. */
  lemma HeadIsMember(s: seq<string>)
    ensures s == [] || s[0] in s
  {
  }

  lemma IdsOfTail(repos: seq<Repository>)
    requires repos != [] && NoDuplicates(Ids(repos))
    ensures NoDuplicates(Ids(repos[1..])) && repos[0].id !in Ids(repos[1..])
    ensures forall x :: x in Ids(repos) ==> x == repos[0].id || x in Ids(repos[1..])
  {
    var ids, tail := Ids(repos), Ids(repos[1..]);
    assert forall k :: 0 <= k < |tail| ==> tail[k] == ids[k + 1];
    assert ids == [repos[0].id] + tail;
    forall k | 0 <= k < |tail| ensures tail[k] != repos[0].id {
      assert ids[0] != ids[k + 1];
    }
  }

  /** When the selection holds distinct ids of distinct-id repositories, the count in the
      toast equals the number of names scanned. */
  lemma {:induction false} SelectedCount(repos: seq<Repository>, selected: seq<string>)
    requires NoDuplicates(Ids(repos)) && NoDuplicates(selected)
    requires forall x :: x in selected ==> x in Ids(repos)
    ensures |SelectedNames(repos, selected)| == |selected|
  {
    if repos == [] {
      HeadIsMember(selected);
    } else {
      var r := repos[0];
      var rest := repos[1..];
      IdsOfTail(repos);
      if r.id in selected {
        var s' := RemoveAll(selected, r.id);
        RemoveAllShrinksByOne(selected, r.id);
        RemoveAllKeepsNoDuplicates(selected, r.id);
        forall k | 0 <= k < |rest| ensures rest[k].id in selected <==> rest[k].id in s' {
          assert Ids(rest)[k] == rest[k].id;
        }
        SelectedNamesByMembership(rest, selected, s');
        SelectedCount(rest, s');
      } else {
        SelectedCount(rest, selected);
      }
    }
  }

  // ---------------------------------------------------------------------
  // The dialog
  // ---------------------------------------------------------------------

  class GitHubModal {
    var repositories: seq<Repository>
    var selectedRepos: seq<string>
    var isLoading: bool
    var isConnected: bool
    /** Every value `isLoading` has been set to, in order. */
    var loadingHistory: seq<bool>
    /** Set once the dialog has asked its owner to close it. */
    var closeRequested: bool
    var notices: seq<Notice>
    /** The name lists handed to the scanner, in order. */
    var scanRequests: seq<seq<string>>

    ghost predicate Valid()
      reads this
    {
      NoDuplicates(selectedRepos)
    }

    constructor ()
      ensures Valid()
      ensures repositories == [] && selectedRepos == [] && !isLoading && !isConnected
      ensures loadingHistory == [] && !closeRequested && notices == [] && scanRequests == []
    {
      repositories := [];
      selectedRepos := [];
      isLoading := false;
      isConnected := false;
      loadingHistory := [];
      closeRequested := false;
      notices := [];
      scanRequests := [];
    }

    /** The simulated OAuth flow: loading on entry, off again on exit. */
    method ConnectGitHub()
      modifies this`isLoading, this`isConnected, this`repositories, this`loadingHistory, this`notices
      ensures isConnected && repositories == MockRepositories() && !isLoading
      ensures loadingHistory == old(loadingHistory) + [true, false]
      ensures notices == old(notices) + [Connected]
    {
      isLoading := true;
      loadingHistory := loadingHistory + [true];
      // await 2000
      isConnected := true;
      repositories := MockRepositories();
      notices := notices + [Connected];
      isLoading := false;
      loadingHistory := loadingHistory + [false];
    }

    method RepoSelect(repoId: string)
      requires Valid()
      modifies this`selectedRepos
      ensures Valid()
      ensures selectedRepos == Toggle(old(selectedRepos), repoId)
    {
      ToggleKeepsNoDuplicates(selectedRepos, repoId);
      selectedRepos := Toggle(selectedRepos, repoId);
    }

    method StartScanning() returns (outcome: ScanStart)
      modifies this`notices, this`scanRequests, this`closeRequested
      ensures selectedRepos == [] ==>
                outcome == Rejected && notices == old(notices) + [NoneSelected]
                && scanRequests == old(scanRequests) && closeRequested == old(closeRequested)
      ensures selectedRepos != [] ==>
                outcome == Started(SelectedNames(repositories, selectedRepos))
                && notices == old(notices) + [ScanningStarted(|selectedRepos|)]
                && scanRequests == old(scanRequests) + [outcome.names]
                && closeRequested
    {
      if |selectedRepos| == 0 {
        notices := notices + [NoneSelected];
        return Rejected;
      }
      var names := SelectedNames(repositories, selectedRepos);
      notices := notices + [ScanningStarted(|selectedRepos|)];
      scanRequests := scanRequests + [names];
      closeRequested := true;
      outcome := Started(names);
    }
  }
}
