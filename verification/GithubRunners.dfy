/** Listing the runners of a pool page by page, and removing those that lost their pod. */
module GithubRunners {
  import opened Base
  import opened ManagerPass

  /** The runner carries every required label. */
  predicate HasAll(r: GithubRunner, labels: seq<string>) {
    forall l :: l in labels ==> l in r.labels
  }

  method HasLabels(r: GithubRunner, labels: seq<string>) returns (has: bool)
    ensures has <==> HasAll(r, labels)
  {
    var actual: set<string> := {};
    for i := 0 to |r.labels|
      invariant actual == set l | l in r.labels[..i]
    {
      assert r.labels[..i + 1] == r.labels[..i] + [r.labels[i]];
      actual := actual + {r.labels[i]};
    }
    assert r.labels[..|r.labels|] == r.labels;
    for i := 0 to |labels|
      invariant forall j :: 0 <= j < i ==> labels[j] in r.labels
    {
      if labels[i] !in actual {
        return false;
      }
    }
    return true;
  }

  // One answer of the list API: a page, with or without a next one, or an error.
  datatype Answer = Page(runners: seq<GithubRunner>, more: bool) | Broken

  predicate Final(a: Answer) {
    a.Broken? || !a.more
  }

  // Some answer is a last page or an error.
  ghost predicate Ends(answers: seq<Answer>) {
    exists i :: 0 <= i < |answers| && Final(answers[i])
  }

  // Going is a loop that every answer so far has told to go on.
  datatype Listing = Listed(runners: seq<GithubRunner>) | ListFailed | Going(soFar: seq<GithubRunner>)

  function Filter(runners: seq<GithubRunner>, labels: seq<string>): seq<GithubRunner> {
    if runners == [] then []
    else
      var n := |runners| - 1;
      Filter(runners[..n], labels) + (if HasAll(runners[n], labels) then [runners[n]] else [])
  }

  lemma {:induction false} FilterKeepsExactly(runners: seq<GithubRunner>, labels: seq<string>, x: GithubRunner)
    ensures x in Filter(runners, labels) <==> x in runners && HasAll(x, labels)
  {
    if runners != [] {
      var n := |runners| - 1;
      FilterKeepsExactly(runners[..n], labels, x);
      assert runners == runners[..n] + [runners[n]];
    }
  }

  // All runners of these pages, in order.
  function Everyone(pages: seq<Answer>): seq<GithubRunner> {
    if pages == [] then []
    else
      var n := |pages| - 1;
      Everyone(pages[..n]) + (if pages[n].Page? then pages[n].runners else [])
  }

  /** One runner is kept iff it carries all labels: with FilterConcat this determines the filter, order and
      repetitions included. */
  lemma FilterOne(x: GithubRunner, labels: seq<string>)
    ensures Filter([x], labels) == (if forall l :: l in labels ==> l in x.labels then [x] else [])
  {
    assert [x][..0] == [];
  }

  /** The runners of two stretches of pages are those of the first, then those of the second. */
  lemma {:induction false} EveryoneConcat(a: seq<Answer>, b: seq<Answer>)
    ensures Everyone(a + b) == Everyone(a) + Everyone(b)
  {
    if b == [] {
      assert a + b == a;
    } else {
      var n := |b| - 1;
      EveryoneConcat(a, b[..n]);
      assert (a + b)[..|a| + n] == a + b[..n] && (a + b)[|a| + n] == b[n];
      var last := if b[n].Page? then b[n].runners else [];
      assert Everyone(a + b) == Everyone(a + b[..n]) + last;
      assert Everyone(b) == Everyone(b[..n]) + last;
    }
  }

  lemma EveryoneOne(x: Answer)
    ensures Everyone([x]) == (if x.Page? then x.runners else [])
  {
    assert [x][..0] == [];
  }

  lemma {:induction false} FilterConcat(a: seq<GithubRunner>, b: seq<GithubRunner>, labels: seq<string>)
    ensures Filter(a + b, labels) == Filter(a, labels) + Filter(b, labels)
  {
    hide HasAll;
    if b == [] {
      assert a + b == a;
    } else {
      var n := |b| - 1;
      FilterConcat(a, b[..n], labels);
      assert (a + b)[..|a| + n] == a + b[..n];
    }
  }

  /** The loop over one page. */
  method FilterPage(page: seq<GithubRunner>, labels: seq<string>) returns (r: seq<GithubRunner>)
    ensures r == Filter(page, labels)
  {
    hide HasAll;
    r := [];
    for i := 0 to |page|
      invariant r == Filter(page[..i], labels)
    {
      assert page[..i + 1][..i] == page[..i];
      var has := HasLabels(page[i], labels);
      if has {
        r := r + [page[i]];
      }
    }
    assert page[..|page|] == page;
  }

  // The index of the answer that ends the loop.
  function LastPage(answers: seq<Answer>): (i: nat)
    requires Ends(answers)
    ensures i < |answers| && Final(answers[i]) && forall j :: 0 <= j < i ==> !Final(answers[j])
  {
    if Final(answers[0]) then 0
    else
      assert Ends(answers[1..]) by {
        var i :| 0 <= i < |answers| && Final(answers[i]);
        assert Final(answers[1..][i - 1]);
      }
      var k := LastPage(answers[1..]);
      assert forall j :: 0 < j <= k ==> !Final(answers[j]) by {
        forall j | 0 < j <= k ensures !Final(answers[j]) {
          assert answers[j] == answers[1..][j - 1];
        }
      }
      k + 1
  }

  lemma FirstFinal(answers: seq<Answer>, i: nat)
    requires i < |answers| && Final(answers[i]) && forall j :: 0 <= j < i ==> !Final(answers[j])
    ensures Ends(answers) && LastPage(answers) == i
  {
    assert !(LastPage(answers) < i);
    assert !(i < LastPage(answers));
  }

  lemma FilterOfNobody(labels: seq<string>)
    ensures Filter([], labels) == []
  {
  }

  /** What the page loop comes to, for any answers of the server: with a last page, the label-filtered
      concatenation of the pages up to it; with an error first, nothing at all; and with neither, a loop
      that has gathered the filtered concatenation of all of them. */
  ghost function ListingOf(answers: seq<Answer>, labels: seq<string>): Listing {
    if !Ends(answers) then Going(Filter(Everyone(answers), labels))
    else
      var i := LastPage(answers);
      if answers[i].Broken? then ListFailed else Listed(Filter(Everyone(answers[..i + 1]), labels))
  }

  method ListRunners(answers: seq<Answer>, labels: seq<string>) returns (r: Listing)
    ensures r == ListingOf(answers, labels)
  {
    hide Filter, LastPage;
    var runners := [];
    var page := 0;
    assert Filter(Everyone(answers[..0]), labels) == [] by {
      FilterOfNobody(labels);
    }
    while page < |answers|
      invariant 0 <= page <= |answers|
      invariant forall j :: 0 <= j < page ==> !Final(answers[j])
      invariant runners == Filter(Everyone(answers[..page]), labels)
    {
      var list := answers[page];
      if Final(list) {
        FirstFinal(answers, page);
      }
      if list.Broken? {
        return ListFailed;
      }
      var more := FilterPage(list.runners, labels);
      FilterConcat(Everyone(answers[..page]), list.runners, labels);
      assert answers[..page + 1][..page] == answers[..page];
      runners := runners + more;
      if !list.more {
        return Listed(runners);
      }
      page := page + 1;
    }
    assert answers[..|answers|] == answers;
    return Going(runners);
  }

  ghost predicate PodExists(name: string, pods: seq<KubePod>) {
    exists i :: 0 <= i < |pods| && pods[i].name == name
  }

  method FindPod(name: string, pods: seq<KubePod>) returns (found: bool)
    ensures found <==> PodExists(name, pods)
  {
    for i := 0 to |pods|
      invariant forall j :: 0 <= j < i ==> pods[j].name != name
    {
      if pods[i].name == name {
        return true;
      }
    }
    return false;
  }

  // The runners that a pass wants to remove: offline, and no listed pod has their name.
  ghost function Orphans(runners: seq<GithubRunner>, pods: seq<KubePod>): (r: seq<GithubRunner>)
    ensures |r| <= |runners|
  {
    if runners == [] then []
    else
      var n := |runners| - 1;
      Orphans(runners[..n], pods) +
      (if runners[n].online || PodExists(runners[n].name, pods) then [] else [runners[n]])
  }

  lemma {:induction false} OrphansExactly(runners: seq<GithubRunner>, pods: seq<KubePod>, x: GithubRunner)
    ensures x in Orphans(runners, pods) <==> x in runners && !x.online && !PodExists(x.name, pods)
  {
    if runners != [] {
      var n := |runners| - 1;
      OrphansExactly(runners[..n], pods, x);
      assert runners == runners[..n] + [runners[n]];
    }
  }

  lemma {:induction false} OrphansPrefix(runners: seq<GithubRunner>, pods: seq<KubePod>, i: nat)
    requires i <= |runners|
    ensures Orphans(runners[..i], pods) <= Orphans(runners, pods)
    decreases |runners| - i
  {
    if i == |runners| {
      assert runners[..i] == runners;
    } else {
      assert runners[..i + 1][..i] == runners[..i];
      OrphansPrefix(runners, pods, i + 1);
    }
  }

  /** The orphans of a list come in its order: those of its first part, then those of the rest. */
  lemma {:induction false} OrphansConcat(a: seq<GithubRunner>, b: seq<GithubRunner>, pods: seq<KubePod>)
    ensures Orphans(a + b, pods) == Orphans(a, pods) + Orphans(b, pods)
  {
    hide PodExists;
    if b == [] {
      assert a + b == a;
    } else {
      var n := |b| - 1;
      OrphansConcat(a, b[..n], pods);
      assert (a + b)[..|a| + n] == a + b[..n];
    }
  }

  /** The periodic removal: it removes the orphans in order, all of them when no call fails, and else
      those before the first failure. oks[k] is the answer to the k-th call. */
  method DeleteOfflineRunners(runners: seq<GithubRunner>, pods: seq<KubePod>, oks: seq<bool>)
    returns (removed: seq<GithubRunner>, err: bool)
    requires |oks| >= |runners|
    ensures removed <= Orphans(runners, pods)
    ensures forall k :: 0 <= k < |removed| ==> oks[k]
    ensures !err <==> |removed| == |Orphans(runners, pods)|
    ensures err ==> !oks[|removed|]
  {
    removed, err := [], false;
    for i := 0 to |runners|
      invariant removed == Orphans(runners[..i], pods)
      invariant forall k :: 0 <= k < |removed| ==> oks[k]
    {
      assert runners[..i + 1][..i] == runners[..i];
      if runners[i].online {
        continue;
      }
      var found := FindPod(runners[i].name, pods);
      if found {
        continue;
      }
      if !oks[|removed|] {
        OrphansPrefix(runners, pods, i + 1);
        assert removed + [runners[i]] <= Orphans(runners, pods);
        err := true;
        return;
      }
      removed := removed + [runners[i]];
    }
    assert runners[..|runners|] == runners;
  }

  /** The removal when the process stops, which looks at no pod: every listed runner goes, or those
      before the first failure; nothing is removed when the list fails, or is still going when the time
      allowed for it is over. */
  method DeleteAllRunners(answers: seq<Answer>, labels: seq<string>, oks: seq<bool>)
    returns (removed: seq<GithubRunner>, err: bool)
    requires ListingOf(answers, labels).Listed? ==> |oks| >= |ListingOf(answers, labels).runners|
    ensures var list := ListingOf(answers, labels);
            && removed <= (if list.Listed? then list.runners else [])
            && (!err <==> list.Listed? && |removed| == |list.runners|)
            && (forall k :: 0 <= k < |removed| ==> k < |oks| && oks[k])
            && (err && list.Listed? ==> !oks[|removed|])
  {
    hide ListingOf;
    removed, err := [], false;
    var list := ListRunners(answers, labels);
    if !list.Listed? {
      return removed, true;
    }
    var runners := list.runners;
    for i := 0 to |runners|
      invariant removed == runners[..i]
      invariant forall k :: 0 <= k < i ==> oks[k]
    {
      if !oks[i] {
        err := true;
        return;
      }
      removed := removed + [runners[i]];
    }
  }

  // Every label with a slash that the runner carries is the namespaced name of this pool.
  predicate Belongs(r: GithubRunner, namespace: string, name: string) {
    forall l :: l in r.labels && '/' in l ==> l == NamespacedName(namespace, name)
  }

  /** A pool lists no runner that belongs to another pool. */
  lemma ListingIsIsolated(runners: seq<GithubRunner>, namespace: string, name: string,
                          namespace': string, name': string, r: GithubRunner)
    requires '/' !in namespace && '/' !in name && '/' !in namespace' && '/' !in name'
    requires r in Filter(runners, [NamespacedName(namespace, name)]) && Belongs(r, namespace', name')
    ensures namespace == namespace' && name == name'
  {
    var own := NamespacedName(namespace, name);
    FilterKeepsExactly(runners, [own], r);
    assert own in [own] && HasAll(r, [own]);
    assert own[|namespace|] == '/';
    NamespacedNameInjective(namespace, name, namespace', name');
  }

  /** So neither removal touches a runner of another pool: both choose from the list. */
  lemma RemovalIsIsolated(runners: seq<GithubRunner>, pods: seq<KubePod>,
                          namespace: string, name: string, namespace': string, name': string, r: GithubRunner)
    requires '/' !in namespace && '/' !in name && '/' !in namespace' && '/' !in name'
    requires var list := Filter(runners, [NamespacedName(namespace, name)]); r in list || r in Orphans(list, pods)
    requires Belongs(r, namespace', name')
    ensures namespace == namespace' && name == name'
  {
    OrphansExactly(Filter(runners, [NamespacedName(namespace, name)]), pods, r);
    ListingIsIsolated(runners, namespace, name, namespace', name', r);
  }
}
