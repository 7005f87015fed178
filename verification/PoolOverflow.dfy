/** The exact limits on the settings under which no release budget ever overflows: beyond them there is
    a history in which one does. */
module PoolOverflow {
  import opened Base
  import R = RunnerPod
  import opened ManagerPass
  import opened PassProperties
  import opened PoolWorld
  import opened PoolBudget

  // A run from an empty pool whose settings stay within these limits.
  ghost predicate RunWithin(w: World, steps: seq<Step>, p: nat, h: int) {
    && Init(w) && Possible(w, steps) && Limits(w.cfg, p, h)
    && forall s :: s in steps ==> ConfiguresWithin(s, p, h)
  }

  function Settings(replicas: int, maxRunnerPods: int): Config {
    Config(replicas, maxRunnerPods, false, "", 0, 0)
  }

  // k distinct names: the k-th is k letters long.
  function Name(k: nat): string {
    seq(k, _ => 'p')
  }

  // An idle manager, k pods that were all released, listed in items, and room for more of them.
  ghost predicate Holding(w: World, items: seq<KubePod>, k: nat, h: int) {
    && w.phase == Idle && w.cfg == Settings(0, h) && w.hist.peak == 1 && !w.hist.wrapped
    && |items| == k && Snapshot(w, items) && (forall n :: n in w.live ==> HASH_LABEL !in w.live[n].obj.labels)
    && (forall n :: n in w.used ==> |n| <= k)
  }

  // One step more.
  lemma Extend(w: World, steps: seq<Step>, s: Step, p: nat, h: int) returns (more: seq<Step>)
    requires RunWithin(w, steps, p, h) && Enabled(After(w, steps), s) && ConfiguresWithin(s, p, h)
    ensures RunWithin(w, more, p, h) && Possible(w, more) && After(w, more) == Apply(After(w, steps), s)
  {
    more := steps + [s];
    assert more[..|steps|] == steps;
  }

  const FRESH_LABELS: Labels := map[HASH_LABEL := "h"]

  function NewPod(k: nat): KubePod {
    KubePod(Name(k + 1), 0, false, FRESH_LABELS)
  }

  // A running pod with a job is released, and that is all that its visit does.
  lemma BusyPodIsReleased(c: Ctx, b: int, po: KubePod, r: Replies)
    requires po.running && po.labels == FRESH_LABELS && b > 0
    requires c.runners == [GithubRunner(1, po.name, true, true, [])]
    requires r == Replies(Some(R.BLANK), true, true, true, true, true, true, false)
    ensures Visit(c, b, po, r).calls == [Unlink(po, true)]
  {
    assert BusyIn(c.runners, po.name) by {
      assert c.runners[0].name == po.name;
    }
  }

  lemma ListedFirst(u: World, v: World, items: seq<KubePod>, po: KubePod)
    requires Snapshot(u, items) && po.name !in u.live && v.live.Keys == u.live.Keys + {po.name}
    requires v.live[po.name].obj == po && forall n :: n in u.live ==> v.live[n].obj == u.live[n].obj
    ensures Snapshot(v, [po] + items)
  {
    var all := [po] + items;
    forall n | n in v.live
      ensures Listing(all, n)
    {
      if n == po.name {
        assert all[0].name == n;
      } else {
        var i :| 0 <= i < |items| && items[i].name == n;
        assert all[i + 1].name == n;
      }
    }
    assert forall i :: 0 < i < |all| ==> all[i] == items[i - 1];
  }

  // A new running pod that has not booted yet.
  lemma NewPodRuns(w: World, steps: seq<Step>, items: seq<KubePod>, k: nat, p: nat, h: int)
    returns (more: seq<Step>, all: seq<KubePod>)
    requires RunWithin(w, steps, p, h) && Holding(After(w, steps), items, k, h)
    ensures RunWithin(w, more, p, h)
    ensures var u := After(w, steps);
            var v := After(w, more);
            var po := NewPod(k).(created := u.clock, running := true);
            && all == [po] + items && Snapshot(v, all) && v.phase == Idle && v.cfg == u.cfg && v.hist == u.hist
            && v.live == u.live[po.name := Live(po, R.Fresh(false))] && v.used == u.used + {po.name}
            && po.name !in u.live && v.clock == u.clock
  {
    var u := After(w, steps);
    var obj := NewPod(k);
    assert obj.name !in u.used;
    assert Labelled(u) == {};
    LabelKeysDiffer();
    assert |obj.name| == k + 1;
    assert obj.name !in u.live by {
      InitIsSound(w);
      RunKeepsSound(w, steps);
      SoundParts(u);
    }
    more := Extend(w, steps, Create(obj, false), p, h);
    more := Extend(w, more, SetRunning(obj.name, true), p, h);
    var v := After(w, more);
    var po := obj.(created := u.clock, running := true);
    assert v.live == u.live[po.name := Live(po, R.Fresh(false))];
    all := [po] + items;
    ListedFirst(u, v, items, po);
  }

  // The new pod is the first of the list, the only one with the label, and has not booted.
  ghost predicate NewFirst(u: World, all: seq<KubePod>, k: nat, h: int) {
    && u.phase == Idle && u.cfg == Settings(0, h) && !u.hist.wrapped
    && Snapshot(u, all) && |all| == k + 1 && all[0].running && all[0].labels == FRESH_LABELS
    && all[0].name in u.live && u.live[all[0].name].runner == R.Fresh(false)
    && forall n :: n in u.live && n != all[0].name ==> HASH_LABEL !in u.live[n].obj.labels
  }

  lemma {:induction false} CountAllButFirst(all: seq<KubePod>)
    requires all != [] && HASH_LABEL in all[0].labels && forall i :: 0 < i < |all| ==> HASH_LABEL !in all[i].labels
    ensures CountUnlabelled(all) == |all| - 1
  {
    if |all| > 1 {
      CountAllButFirst(all[..|all| - 1]);
    } else {
      assert all[..0] == [];
    }
  }

  lemma CountOneLabelled(u: World, all: seq<KubePod>, k: nat)
    requires Snapshot(u, all) && |all| == k + 1 && HASH_LABEL in all[0].labels
    requires forall n :: n in u.live && n != all[0].name ==> HASH_LABEL !in u.live[n].obj.labels
    ensures CountUnlabelled(all) == k
  {
    forall i | 0 < i < |all|
      ensures HASH_LABEL !in all[i].labels
    {
      assert all[i].name != all[0].name;
    }
    CountAllButFirst(all);
  }

  // A pass begins that has the new pod's runner as busy, and some budget left.
  lemma PassBegins(w: World, steps: seq<Step>, all: seq<KubePod>, k: nat, p: nat, h: int) returns (more: seq<Step>)
    requires RunWithin(w, steps, p, h) && k < h < TWO31 && NewFirst(After(w, steps), all, k, h)
    ensures RunWithin(w, more, p, h)
    ensures var u := After(w, steps);
            var b := After(w, more);
            && b.phase.Visiting? && b.phase.items == all && b.phase.pending == [] && b.phase.budget > 0
            && b.phase.ctx.runners == [GithubRunner(1, all[0].name, true, true, [])]
            && b.live == u.live && b.cfg == u.cfg && b.used == u.used && b.hist.peak == u.hist.peak && !b.hist.wrapped
  {
    var u := After(w, steps);
    hide Init, Possible, After, RunWithin, Snapshot, Wrap32;
    CountOneLabelled(u, all, k);
    more := Extend(w, steps, List(all, [GithubRunner(1, all[0].name, true, true, [])]), p, h);
    more := Extend(w, more, Begin, p, h);
    assert IsInt32(u.cfg.maxRunnerPods - u.cfg.replicas - k);
  }

  lemma RunPossible(w: World, steps: seq<Step>, p: nat, h: int)
    requires RunWithin(w, steps, p, h)
    ensures Possible(w, steps)
  {
  }

  lemma InSnapshot(u: World, all: seq<KubePod>)
    requires Snapshot(u, all) && all != []
    ensures all[0].name in u.live && u.live[all[0].name].obj == all[0]
  {
  }

  // Releasing the new pod; the manager then dies.
  lemma NewPodIsReleased(w: World, steps: seq<Step>, all: seq<KubePod>, k: nat, p: nat, h: int) returns (more: seq<Step>)
    requires RunWithin(w, steps, p, h) && k < h < TWO31 && NewFirst(After(w, steps), all, k, h)
    ensures RunWithin(w, more, p, h)
    ensures var u := After(w, steps);
            var v := After(w, more);
            && v.phase == Idle && v.cfg == u.cfg && v.hist.peak == u.hist.peak && !v.hist.wrapped && v.used == u.used
            && v.live == u.live[all[0].name := u.live[all[0].name].(obj := Unlinked(all[0]))]
  {
    var u := After(w, steps);
    hide Visit, Init, Possible, After, RunWithin, Snapshot;
    InSnapshot(u, all);
    more := PassBegins(w, steps, all, k, p, h);
    RunPossible(w, more, p, h);
    var b := After(w, more);
    var r := Replies(Some(R.BLANK), true, true, true, true, true, true, false);
    BusyPodIsReleased(b.phase.ctx, b.phase.budget, all[0], r);
    more := Extend(w, more, Read(r), p, h);
    more := Extend(w, more, Do, p, h);
    more := Extend(w, more, RestartManager, p, h);
  }

  lemma {:induction false} CountAll(all: seq<KubePod>)
    requires forall i :: 0 <= i < |all| ==> HASH_LABEL !in all[i].labels
    ensures CountUnlabelled(all) == |all|
  {
    if all != [] {
      CountAll(all[..|all| - 1]);
    }
  }

  // Editing the first listed pod edits the list.
  lemma StillListed(u: World, v: World, all: seq<KubePod>, po: KubePod)
    requires Snapshot(u, all) && all != [] && po.name == all[0].name
    requires v.live.Keys == u.live.Keys && v.live[po.name].obj == po
    requires forall n :: n in u.live && n != po.name ==> v.live[n] == u.live[n]
    ensures Snapshot(v, all[0 := po])
  {
    var items := all[0 := po];
    forall i, j | 0 <= i < j < |items|
      ensures items[i].name != items[j].name
    {
      assert all[i].name != all[j].name;
    }
    forall n | n in v.live
      ensures Listing(items, n)
    {
      assert Listing(all, n);
      var i :| 0 <= i < |all| && all[i].name == n;
      assert items[i].name == n;
    }
  }

  lemma EmptyPool(p: nat, h: int) returns (w: World, steps: seq<Step>)
    requires 1 <= p < TWO31 && 0 <= h < TWO31
    ensures RunWithin(w, steps, p, h) && Holding(After(w, steps), [], 0, h)
  {
    w := World(1, map[], {}, map[], Settings(1, 0), 1, Idle, None,
               History(1, [], multiset{}, multiset{}, {}, -1, 1, false, {}, NoClick, None, [], 0, [], [], false));
    steps := Extend(w, [], Configure(Settings(0, h)), p, h);
  }

  // Pods are released one after the other, up to the headroom.
  lemma {:induction false} ReleaseMany(k: nat, p: nat, h: int) returns (w: World, steps: seq<Step>, items: seq<KubePod>)
    requires 1 <= p < TWO31 && 0 <= k <= h < TWO31
    ensures RunWithin(w, steps, p, h) && Holding(After(w, steps), items, k, h)
  {
    hide Snapshot, Init, Apply, Enabled;
    if k == 0 {
      w, steps := EmptyPool(p, h);
      items := [];
    } else {
      w, steps, items := ReleaseMany(k - 1, p, h);
      var all;
      steps, all := NewPodRuns(w, steps, items, k - 1, p, h);
      var u := After(w, steps);
      steps := NewPodIsReleased(w, steps, all, k - 1, p, h);
      var v := After(w, steps);
      items := all[0 := Unlinked(all[0])];
      StillListed(u, v, all, Unlinked(all[0]));
    }
  }

  lemma SameListed(u: World, v: World, items: seq<KubePod>)
    requires Snapshot(u, items) && v.live == u.live
    ensures Snapshot(v, items)
  {
  }

  lemma AllReleased(u: World, items: seq<KubePod>)
    requires Snapshot(u, items) && forall n :: n in u.live ==> HASH_LABEL !in u.live[n].obj.labels
    ensures CountUnlabelled(items) == |items|
  {
    CountAll(items);
  }

  /** Beyond the limits a budget can overflow: with 2^31 - p + 1 released pods and then p replicas and no
      headroom configured, the difference falls below the int32 range. */
  lemma SettingsCanWrap(p: nat, h: int) returns (w: World, steps: seq<Step>)
    requires p < TWO31 && h < TWO31 && p + Max(0, h) > TWO31
    ensures RunWithin(w, steps, p, h) && After(w, steps).hist.wrapped
  {
    var k := TWO31 - p + 1;
    var items;
    w, steps, items := ReleaseMany(k, p, h);
    var u := After(w, steps);
    hide Init, Possible, After, RunWithin, Snapshot;
    AllReleased(u, items);
    steps := Extend(w, steps, Configure(Settings(p, 0)), p, h);
    SameListed(u, After(w, steps), items);
    steps := Extend(w, steps, List(items, []), p, h);
    steps := Extend(w, steps, Begin, p, h);
  }

  // No run within these limits has a budget that overflows.
  ghost predicate NeverWraps(p: nat, h: int) {
    forall w, steps :: RunWithin(w, steps, p, h) ==> !After(w, steps).hist.wrapped
  }

  /** The exact condition on the settings: for all limits that int32 settings can reach, no budget ever
      overflows iff the two limits add up to at most 2^31. */
  lemma SettingsNeverWrapExactlyWhen(p: nat, h: int)
    requires p < TWO31 && h < TWO31
    ensures NeverWraps(p, h) <==> p + Max(0, h) <= TWO31
  {
    if p + Max(0, h) <= TWO31 {
      forall w, steps | RunWithin(w, steps, p, h)
        ensures !After(w, steps).hist.wrapped
      {
        SettingsNeverWrap(w, steps, p, h);
      }
    } else {
      var w, steps := SettingsCanWrap(p, h);
      assert RunWithin(w, steps, p, h);
    }
  }
}
