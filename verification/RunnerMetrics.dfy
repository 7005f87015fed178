/** The controller's runner metrics: two gauge vectors and the label index that has to agree with them,
    shared by the processes of all pools. */
module RunnerMetrics {
  import opened ManagerPass

  type Series = map<(string, string), real>

  // labels is runnerLabelSet; the keys of the two vectors are pairs of pool and runner.
  datatype Index = Index(labels: map<string, set<string>>, online: Series, busy: Series)

  /** 1 is on, 0 is off. */
  function Gauge(on: bool): (g: real)
    ensures g == 1.0 <==> on
    ensures g == 0.0 <==> !on
  {
    if on then 1.0 else 0.0
  }

  function LabelsOf(ix: Index, pool: string): set<string> {
    if pool in ix.labels then ix.labels[pool] else {}
  }

  /** Online series, busy series and index name the same runners, and no inner set is empty. */
  ghost predicate Agrees(ix: Index) {
    && (forall k :: k in ix.online <==> k.1 in LabelsOf(ix, k.0))
    && (forall k :: k in ix.busy <==> k.1 in LabelsOf(ix, k.0))
    && (forall p :: p in ix.labels ==> ix.labels[p] != {})
  }

  function Put(ix: Index, pool: string, runner: string, online: bool, busy: bool): Index {
    Index(ix.labels[pool := LabelsOf(ix, pool) + {runner}],
          ix.online[(pool, runner) := Gauge(online)],
          ix.busy[(pool, runner) := Gauge(busy)])
  }

  function Without(m: Series, pool: string, names: set<string>): Series {
    map k | k in m && !(k.0 == pool && k.1 in names) :: m[k]
  }

  // Dropping these runners of a pool, and the pool's inner set with the last of them.
  function Drop(ix: Index, pool: string, names: set<string>): Index {
    var left := LabelsOf(ix, pool) - names;
    Index(if left == {} then ix.labels - {pool} else ix.labels[pool := left],
          Without(ix.online, pool, names), Without(ix.busy, pool, names))
  }

  lemma PutAgrees(ix: Index, pool: string, runner: string, online: bool, busy: bool)
    requires Agrees(ix)
    ensures Agrees(Put(ix, pool, runner, online, busy))
  {
    var v := Put(ix, pool, runner, online, busy);
    forall k
      ensures k in v.online <==> k.1 in LabelsOf(v, k.0)
      ensures k in v.busy <==> k.1 in LabelsOf(v, k.0)
    {
      assert k in ix.online <==> k.1 in LabelsOf(ix, k.0);
    }
  }

  lemma DropAgrees(ix: Index, pool: string, names: set<string>)
    requires Agrees(ix)
    ensures Agrees(Drop(ix, pool, names))
    ensures forall p :: LabelsOf(Drop(ix, pool, names), p) == if p == pool then LabelsOf(ix, p) - names else LabelsOf(ix, p)
  {
    var v := Drop(ix, pool, names);
    forall p
      ensures LabelsOf(v, p) == if p == pool then LabelsOf(ix, p) - names else LabelsOf(ix, p)
    {
    }
    forall k
      ensures k in v.online <==> k.1 in LabelsOf(v, k.0)
      ensures k in v.busy <==> k.1 in LabelsOf(v, k.0)
    {
      assert k in ix.online <==> k.1 in LabelsOf(ix, k.0);
    }
  }

  // The last entry of each name in a runner list.
  function LastListed(list: seq<GithubRunner>): map<string, GithubRunner> {
    if list == [] then map[]
    else
      var n := |list| - 1;
      LastListed(list[..n])[list[n].name := list[n]]
  }

  function PutAll(ix: Index, pool: string, list: seq<GithubRunner>): Index {
    if list == [] then ix
    else
      var n := |list| - 1;
      Put(PutAll(ix, pool, list[..n]), pool, list[n].name, list[n].online, list[n].busy)
  }

  lemma {:induction false} PutAllAgrees(ix: Index, pool: string, list: seq<GithubRunner>)
    requires Agrees(ix)
    ensures Agrees(PutAll(ix, pool, list))
    ensures forall p :: LabelsOf(PutAll(ix, pool, list), p) ==
                        LabelsOf(ix, p) + (if p == pool then LastListed(list).Keys else {})
  {
    if list != [] {
      var n := |list| - 1;
      PutAllAgrees(ix, pool, list[..n]);
      PutAgrees(PutAll(ix, pool, list[..n]), pool, list[n].name, list[n].online, list[n].busy);
    }
  }

  predicate Same(a: Series, b: Series, k: (string, string)) {
    (k in a <==> k in b) && (k in a ==> a[k] == b[k])
  }

  lemma {:induction false} PutAllValues(ix: Index, pool: string, list: seq<GithubRunner>, k: (string, string))
    ensures var v := PutAll(ix, pool, list);
            if k.0 == pool && k.1 in LastListed(list) then
              && k in v.online && v.online[k] == Gauge(LastListed(list)[k.1].online)
              && k in v.busy && v.busy[k] == Gauge(LastListed(list)[k.1].busy)
            else
              Same(v.online, ix.online, k) && Same(v.busy, ix.busy, k)
  {
    if list != [] {
      PutAllValues(ix, pool, list[..|list| - 1], k);
    }
  }

  /** One updateMetrics: put every listed runner, then drop the previous ones that are gone. */
  function Refresh(ix: Index, pool: string, list: seq<GithubRunner>, prev: set<string>): Index {
    Drop(PutAll(ix, pool, list), pool, prev - LastListed(list).Keys)
  }

  lemma RefreshAgrees(ix: Index, pool: string, list: seq<GithubRunner>, prev: set<string>)
    requires Agrees(ix) && LabelsOf(ix, pool) == prev
    ensures var v := Refresh(ix, pool, list, prev);
            && Agrees(v)
            && LabelsOf(v, pool) == LastListed(list).Keys
            && (forall p :: p != pool ==> LabelsOf(v, p) == LabelsOf(ix, p))
  {
    hide Drop, PutAll, Agrees;
    PutAllAgrees(ix, pool, list);
    DropAgrees(PutAll(ix, pool, list), pool, prev - LastListed(list).Keys);
    assert LabelsOf(Refresh(ix, pool, list, prev), pool) == LastListed(list).Keys;
  }

  // What a refresh does to one pair.
  lemma RefreshAt(ix: Index, pool: string, list: seq<GithubRunner>, prev: set<string>, k: (string, string))
    requires Agrees(ix) && LabelsOf(ix, pool) == prev
    ensures var v := Refresh(ix, pool, list, prev);
            if k.0 != pool then Same(v.online, ix.online, k) && Same(v.busy, ix.busy, k)
            else
              && (k in v.online <==> k.1 in LastListed(list)) && (k in v.busy <==> k.1 in LastListed(list))
              && (k in v.online ==> v.online[k] == Gauge(LastListed(list)[k.1].online))
              && (k in v.busy ==> v.busy[k] == Gauge(LastListed(list)[k.1].busy))
  {
    hide PutAll;
    PutAllValues(ix, pool, list, k);
    assert k in ix.online <==> k.1 in LabelsOf(ix, k.0);
    assert k in ix.busy <==> k.1 in LabelsOf(ix, k.0);
  }

  // The series of this pool are the listed runners with their last listed values; the rest is as before.
  ghost predicate Mirrors(v: Index, ix: Index, pool: string, list: seq<GithubRunner>) {
    && LabelsOf(v, pool) == LastListed(list).Keys
    && (forall n :: (pool, n) in v.online <==> n in LastListed(list))
    && (forall n :: (pool, n) in v.busy <==> n in LastListed(list))
    && (forall n :: n in LastListed(list) ==> v.online[(pool, n)] == (if LastListed(list)[n].online then 1.0 else 0.0))
    && (forall n :: n in LastListed(list) ==> v.busy[(pool, n)] == (if LastListed(list)[n].busy then 1.0 else 0.0))
    && (forall p :: p != pool ==> LabelsOf(v, p) == LabelsOf(ix, p))
    && (forall k: (string, string) :: k.0 != pool ==> Same(v.online, ix.online, k) && Same(v.busy, ix.busy, k))
  }

  /** When the pool's index was its previous list, a refresh makes its series exactly the listed
      runners with their last listed values, and leaves every other pool alone. */
  lemma RefreshIsExact(ix: Index, pool: string, list: seq<GithubRunner>, prev: set<string>)
    requires Agrees(ix) && LabelsOf(ix, pool) == prev
    ensures Agrees(Refresh(ix, pool, list, prev)) && Mirrors(Refresh(ix, pool, list, prev), ix, pool, list)
  {
    hide Refresh, Agrees;
    RefreshAgrees(ix, pool, list, prev);
    var v := Refresh(ix, pool, list, prev);
    forall n
      ensures (pool, n) in v.online <==> n in LastListed(list)
      ensures (pool, n) in v.busy <==> n in LastListed(list)
      ensures n in LastListed(list) ==> v.online[(pool, n)] == (if LastListed(list)[n].online then 1.0 else 0.0)
      ensures n in LastListed(list) ==> v.busy[(pool, n)] == (if LastListed(list)[n].busy then 1.0 else 0.0)
    {
      RefreshAt(ix, pool, list, prev, (pool, n));
    }
    forall k: (string, string) | k.0 != pool
      ensures Same(v.online, ix.online, k) && Same(v.busy, ix.busy, k)
    {
      RefreshAt(ix, pool, list, prev, k);
    }
  }

  lemma DropOfNothing(ix: Index, pool: string, names: set<string>)
    requires Agrees(ix) && pool !in ix.labels
    ensures Drop(ix, pool, names) == ix
  {
    assert forall k :: k in ix.online ==> k.1 in LabelsOf(ix, k.0);
    assert forall k :: k in ix.busy ==> k.1 in LabelsOf(ix, k.0);
    assert Without(ix.online, pool, names) == ix.online;
    assert Without(ix.busy, pool, names) == ix.busy;
  }

  function Names(s: seq<string>): set<string> {
    set n | n in s
  }

  lemma WithoutNobody(m: Series, pool: string)
    ensures Without(m, pool, Names([])) == m && Without(m, pool, {}) == m
  {
  }

  lemma CutOne(m: Series, pool: string, names: set<string>, r: string)
    ensures Without(m, pool, names) - {(pool, r)} == Without(m, pool, names + {r})
  {
  }

  /** difference: the previous names that are not current, in order. */
  function Difference(prev: seq<string>, current: set<string>): (r: seq<string>)
    ensures forall n :: n in r <==> n in prev && n !in current
  {
    if prev == [] then []
    else
      var n := |prev| - 1;
      Difference(prev[..n], current) + (if prev[n] in current then [] else [prev[n]])
  }

  // One call to the metrics, which is atomic; the calls of different pools interleave.
  datatype MetricCall =
    | Update(pool: string, runner: string, online: bool, busy: bool)
    | Remove(pool: string, names: set<string>)

  function Applied(ix: Index, k: MetricCall): Index {
    match k
    case Update(pool, runner, online, busy) => Put(ix, pool, runner, online, busy)
    case Remove(pool, names) => Drop(ix, pool, names)
  }

  function AppliedAll(ix: Index, calls: seq<MetricCall>): Index {
    if calls == [] then ix else Applied(AppliedAll(ix, calls[..|calls| - 1]), calls[|calls| - 1])
  }

  // The calls of one pool among all calls.
  function Own(calls: seq<MetricCall>, pool: string): seq<MetricCall> {
    if calls == [] then []
    else
      var n := |calls| - 1;
      Own(calls[..n], pool) + (if calls[n].pool == pool then [calls[n]] else [])
  }

  // The two indexes show the same of this pool.
  ghost predicate SamePool(a: Index, b: Index, pool: string) {
    && LabelsOf(a, pool) == LabelsOf(b, pool)
    && forall n :: Same(a.online, b.online, (pool, n)) && Same(a.busy, b.busy, (pool, n))
  }

  lemma AppliedKeepsAgrees(ix: Index, k: MetricCall)
    requires Agrees(ix)
    ensures Agrees(Applied(ix, k))
  {
    hide Agrees;
    match k {
      case Update(pool, runner, online, busy) => PutAgrees(ix, pool, runner, online, busy);
      case Remove(pool, names) => DropAgrees(ix, pool, names);
    }
  }

  lemma OtherCallIsUnseen(ix: Index, k: MetricCall, pool: string)
    requires k.pool != pool
    ensures SamePool(Applied(ix, k), ix, pool)
  {
  }

  lemma OwnCallIsTheSame(a: Index, b: Index, k: MetricCall)
    requires SamePool(a, b, k.pool)
    ensures SamePool(Applied(a, k), Applied(b, k), k.pool)
  {
    var pool := k.pool;
    forall n
      ensures Same(Applied(a, k).online, Applied(b, k).online, (pool, n))
      ensures Same(Applied(a, k).busy, Applied(b, k).busy, (pool, n))
    {
      assert Same(a.online, b.online, (pool, n)) && Same(a.busy, b.busy, (pool, n));
    }
  }

  lemma SameAsItself(ix: Index, pool: string)
    ensures SamePool(ix, ix, pool)
  {
  }

  lemma SameInTurn(a: Index, b: Index, c: Index, pool: string)
    requires SamePool(a, b, pool) && SamePool(b, c, pool)
    ensures SamePool(a, c, pool)
  {
    forall n
      ensures Same(a.online, c.online, (pool, n)) && Same(a.busy, c.busy, (pool, n))
    {
      assert Same(a.online, b.online, (pool, n)) && Same(b.online, c.online, (pool, n));
      assert Same(a.busy, b.busy, (pool, n)) && Same(b.busy, c.busy, (pool, n));
    }
  }

  /** However the calls of the pools interleave, a pool's part is what its own calls make of it. */
  lemma {:induction false} InterleavingIsUnseen(ix: Index, calls: seq<MetricCall>, pool: string)
    requires Agrees(ix)
    ensures Agrees(AppliedAll(ix, calls))
    ensures SamePool(AppliedAll(ix, calls), AppliedAll(ix, Own(calls, pool)), pool)
  {
    hide Agrees, SamePool, Applied;
    if calls == [] {
      SameAsItself(ix, pool);
    } else {
      var n := |calls| - 1;
      var front := AppliedAll(ix, calls[..n]);
      InterleavingIsUnseen(ix, calls[..n], pool);
      AppliedKeepsAgrees(front, calls[n]);
      if calls[n].pool == pool {
        OwnCallIsTheSame(front, AppliedAll(ix, Own(calls[..n], pool)), calls[n]);
        assert Own(calls, pool)[..|Own(calls, pool)| - 1] == Own(calls[..n], pool);
      } else {
        OtherCallIsUnseen(front, calls[n], pool);
        assert Own(calls, pool) == Own(calls[..n], pool);
        assert AppliedAll(ix, calls) == Applied(front, calls[n]);
        SameInTurn(AppliedAll(ix, calls), front, AppliedAll(ix, Own(calls, pool)), pool);
      }
    }
  }

  // The calls of one updateMetrics.
  function Updates(pool: string, list: seq<GithubRunner>): seq<MetricCall> {
    if list == [] then []
    else
      var n := |list| - 1;
      Updates(pool, list[..n]) + [Update(pool, list[n].name, list[n].online, list[n].busy)]
  }

  function RefreshCalls(pool: string, list: seq<GithubRunner>, prev: set<string>): seq<MetricCall> {
    Updates(pool, list) + [Remove(pool, prev - LastListed(list).Keys)]
  }

  lemma {:induction false} UpdatesPutAll(ix: Index, pool: string, list: seq<GithubRunner>)
    ensures AppliedAll(ix, Updates(pool, list)) == PutAll(ix, pool, list)
  {
    if list != [] {
      var n := |list| - 1;
      UpdatesPutAll(ix, pool, list[..n]);
      var calls := Updates(pool, list);
      assert calls[..|calls| - 1] == Updates(pool, list[..n]);
    }
  }

  lemma RefreshIsPutAndDrop(ix: Index, pool: string, list: seq<GithubRunner>, prev: set<string>)
    ensures Refresh(ix, pool, list, prev) == Drop(PutAll(ix, pool, list), pool, prev - LastListed(list).Keys)
  {
  }

  /** A pool's refresh is exact even when other pools' calls come between any two of its own. */
  lemma InterleavedRefreshIsExact(ix: Index, calls: seq<MetricCall>, pool: string, list: seq<GithubRunner>, prev: set<string>)
    requires Agrees(ix) && LabelsOf(ix, pool) == prev
    requires Own(calls, pool) == RefreshCalls(pool, list, prev)
    ensures var v := AppliedAll(ix, calls);
            && Agrees(v) && LabelsOf(v, pool) == LastListed(list).Keys
            && forall n ::
                 && ((pool, n) in v.online <==> n in LastListed(list)) && ((pool, n) in v.busy <==> n in LastListed(list))
                 && (n in LastListed(list) ==> v.online[(pool, n)] == (if LastListed(list)[n].online then 1.0 else 0.0)
                                               && v.busy[(pool, n)] == (if LastListed(list)[n].busy then 1.0 else 0.0))
  {
    hide Agrees, Drop, Put, Refresh, LastListed;
    var own := RefreshCalls(pool, list, prev);
    InterleavingIsUnseen(ix, calls, pool);
    UpdatesPutAll(ix, pool, list);
    assert own[..|own| - 1] == Updates(pool, list);
    var alone := AppliedAll(ix, own);
    assert alone == Refresh(ix, pool, list, prev) by {
      RefreshIsPutAndDrop(ix, pool, list, prev);
    }
    RefreshIsExact(ix, pool, list, prev);
    var v := AppliedAll(ix, calls);
    forall n
      ensures Same(v.online, alone.online, (pool, n)) && Same(v.busy, alone.busy, (pool, n))
    {
      assert SamePool(v, alone, pool);
    }
  }

  /** The package-level metrics. Each method runs under one mutex. */
  class Metrics {
    var labels: map<string, set<string>>
    var online: Series
    var busy: Series
    var replicas: map<string, int>

    ghost function View(): Index
      reads this
    {
      Index(labels, online, busy)
    }

    constructor ()
      ensures View() == Index(map[], map[], map[]) && replicas == map[]
    {
      labels, online, busy, replicas := map[], map[], map[], map[];
    }

    method UpdateRunnerPoolMetrics(pool: string, n: int)
      modifies this`replicas
      ensures replicas == old(replicas)[pool := n]
    {
      replicas := replicas[pool := n];
    }

    method DeleteRunnerPoolMetrics(pool: string)
      modifies this`replicas
      ensures replicas == old(replicas) - {pool}
    {
      replicas := replicas - {pool};
    }

    method UpdateRunnerMetrics(pool: string, runner: string, on: bool, isBusy: bool)
      modifies this`labels, this`online, this`busy
      ensures View() == Put(old(View()), pool, runner, on, isBusy)
      ensures pool in labels && runner in labels[pool]
      ensures (pool, runner) in online && online[(pool, runner)] == (if on then 1.0 else 0.0)
      ensures (pool, runner) in busy && busy[(pool, runner)] == (if isBusy then 1.0 else 0.0)
    {
      if pool !in labels {
        labels := labels[pool := {}];
      }
      labels := labels[pool := labels[pool] + {runner}];
      assert labels == old(labels)[pool := LabelsOf(old(View()), pool) + {runner}];
      online := online[(pool, runner) := if on then 1.0 else 0.0];
      busy := busy[(pool, runner) := if isBusy then 1.0 else 0.0];
    }

    method DeleteRunnerMetrics(pool: string, runners: seq<string>)
      requires Agrees(View())
      modifies this`labels, this`online, this`busy
      ensures View() == Drop(old(View()), pool, Names(runners))
    {
      hide Agrees;
      if pool !in labels {
        DropOfNothing(View(), pool, Names(runners));
        return;
      }
      var labelSet := labels[pool];
      WithoutNobody(online, pool);
      WithoutNobody(busy, pool);
      for i := 0 to |runners|
        invariant labels == old(labels)
        invariant labelSet == old(labels)[pool] - Names(runners[..i])
        invariant online == Without(old(online), pool, Names(runners[..i]))
        invariant busy == Without(old(busy), pool, Names(runners[..i]))
      {
        assert Names(runners[..i + 1]) == Names(runners[..i]) + {runners[i]};
        CutOne(old(online), pool, Names(runners[..i]), runners[i]);
        CutOne(old(busy), pool, Names(runners[..i]), runners[i]);
        online := online - {(pool, runners[i])};
        busy := busy - {(pool, runners[i])};
        labelSet := labelSet - {runners[i]};
      }
      assert runners[..|runners|] == runners;
      labels := labels[pool := labelSet];
      if |labelSet| == 0 {
        labels := labels - {pool};
      }
    }

    method DeleteAllRunnerMetrics(pool: string)
      requires Agrees(View())
      modifies this`labels, this`online, this`busy
      ensures View() == Drop(old(View()), pool, LabelsOf(old(View()), pool))
      ensures pool !in labels
    {
      hide Agrees;
      if pool !in labels {
        DropOfNothing(View(), pool, {});
        return;
      }
      var todo := labels[pool];
      ghost var all := todo;
      assert all - todo == {};
      WithoutNobody(online, pool);
      WithoutNobody(busy, pool);
      while todo != {}
        invariant labels == old(labels) && todo <= all
        invariant online == Without(old(online), pool, all - todo)
        invariant busy == Without(old(busy), pool, all - todo)
        decreases todo
      {
        var r :| r in todo;
        ghost var done := all - todo;
        CutOne(old(online), pool, done, r);
        CutOne(old(busy), pool, done, r);
        online := online - {(pool, r)};
        busy := busy - {(pool, r)};
        todo := todo - {r};
        assert all - todo == done + {r};
      }
      assert all - todo == all;
      assert all - all == {};
      labels := labels - {pool};
    }
  }
}
