/** How many pods a pool can have, over every run. */
module PoolBudget {
  import opened Base
  import R = RunnerPod
  import opened ManagerPass
  import opened PassProperties
  import opened PoolWorld

  // The releases that the present pass may still make.
  ghost function Outstanding(phase: Phase): nat {
    if phase.Visiting? then Max(0, phase.budget) + |UnlinkedNames(phase.pending)| else 0
  }

  function UnlabelledNames(items: seq<KubePod>): set<string> {
    set i | 0 <= i < |items| && HASH_LABEL !in items[i].labels :: items[i].name
  }

  /** At most peak pods carry the hash label; and the released pods, with the releases still to come,
      stay within the largest headroom configured so far, as long as no budget overflowed. */
  ghost predicate WithinBudget(w: World) {
    && w.cfg.maxRunnerPods - w.cfg.replicas <= w.hist.headroom && w.cfg.replicas <= w.hist.peak
    && |Labelled(w)| <= w.hist.peak
    && (!w.hist.wrapped ==> |Unlabelled(w)| + Outstanding(w.phase) <= Max(0, w.hist.headroom))
    && (w.phase.Listed? ==>
          && Unlabelled(w) <= UnlabelledNames(w.phase.snapshot)
          && (!w.hist.wrapped ==> CountUnlabelled(w.phase.snapshot) <= Max(0, w.hist.headroom)))
    && (w.phase.Visiting? ==> forall k :: k in w.phase.pending && k.Unlink? ==> HASH_LABEL in k.base.labels)
  }

  lemma SubsetSize<T>(a: set<T>, b: set<T>)
    requires a <= b
    ensures |a| <= |b|
  {
    assert b == a + (b - a);
  }

  // The names of a list are those of all but its last pod, and the last pod's if it counts.
  lemma NamesOfList(items: seq<KubePod>)
    requires items != []
    ensures var last := items[|items| - 1];
            UnlabelledNames(items) ==
              UnlabelledNames(items[..|items| - 1]) + (if HASH_LABEL in last.labels then {} else {last.name})
  {
    var n := |items| - 1;
    var front := items[..n];
    var all := UnlabelledNames(front) + (if HASH_LABEL in items[n].labels then {} else {items[n].name});
    forall s | s in all
      ensures s in UnlabelledNames(items)
    {
      if i :| 0 <= i < n && HASH_LABEL !in front[i].labels && front[i].name == s {
        assert items[i] == front[i];
      } else {
        assert items[n].name == s;
      }
    }
    forall s | s in UnlabelledNames(items)
      ensures s in all
    {
      var i :| 0 <= i < |items| && HASH_LABEL !in items[i].labels && items[i].name == s;
      assert i < n ==> items[i] == front[i];
    }
  }

  /** Counting a list bounds the number of distinct names in it, and equals it without repetition. */
  lemma {:induction false} CountNames(items: seq<KubePod>)
    ensures |UnlabelledNames(items)| <= CountUnlabelled(items)
    ensures Distinct(items) ==> |UnlabelledNames(items)| == CountUnlabelled(items)
  {
    if items != [] {
      var n := |items| - 1;
      CountNames(items[..n]);
      NamesOfList(items);
      if Distinct(items) {
        forall i | 0 <= i < n
          ensures items[..n][i].name != items[n].name
        {
          assert items[i].name != items[n].name;
        }
      }
    }
  }

  lemma SnapshotCounts(w: World, items: seq<KubePod>)
    requires Snapshot(w, items)
    ensures UnlabelledNames(items) == Unlabelled(w)
    ensures CountUnlabelled(items) == |Unlabelled(w)|
  {
    CountNames(items);
    forall n | n in Unlabelled(w) ensures n in UnlabelledNames(items) {
      var i :| 0 <= i < |items| && items[i].name == n;
      assert HASH_LABEL !in items[i].labels;
    }
    forall n | n in UnlabelledNames(items) ensures n in Unlabelled(w) {
      var i :| 0 <= i < |items| && HASH_LABEL !in items[i].labels && items[i].name == n;
    }
  }

  // A change that labels and releases nothing, and lets the pass owe no more, keeps the bound.
  lemma Shrinking(w: World, v: World)
    requires WithinBudget(w)
    requires v.cfg == w.cfg && v.hist.headroom == w.hist.headroom && v.hist.peak == w.hist.peak
    requires v.hist.wrapped == w.hist.wrapped
    requires Labelled(v) <= Labelled(w) && Unlabelled(v) <= Unlabelled(w)
    requires v.phase == w.phase || v.phase.Idle?
    ensures WithinBudget(v)
  {
    SubsetSize(Labelled(v), Labelled(w));
    SubsetSize(Unlabelled(v), Unlabelled(w));
  }

  lemma CreateKeeps(w: World, obj: KubePod, hasSetup: bool)
    requires Sound(w) && WithinBudget(w) && Enabled(w, Create(obj, hasSetup))
    ensures WithinBudget(Apply(w, Create(obj, hasSetup)))
  {
    hide Sound, CountUnlabelled, UnlabelledNames, UnlinkedNames;
    SoundParts(w);
    var v := Apply(w, Create(obj, hasSetup));
    assert Labelled(v) == Labelled(w) + {obj.name};
    assert Unlabelled(v) == Unlabelled(w);
  }

  lemma BeginKeeps(w: World)
    requires Sound(w) && WithinBudget(w) && Enabled(w, Begin)
    ensures WithinBudget(Apply(w, Begin))
  {
    hide R.Valid, PhaseSound, LiveSound;
    var v := Apply(w, Begin);
    var count := CountUnlabelled(w.phase.snapshot);
    assert Labelled(v) == Labelled(w) && Unlabelled(v) == Unlabelled(w);
    CountNames(w.phase.snapshot);
    SubsetSize(Unlabelled(w), UnlabelledNames(w.phase.snapshot));
    assert |Unlabelled(w)| <= count;
    if !v.hist.wrapped {
      HeadroomRespected(w.cfg, count);
    }
  }

  lemma AdoptReleasesLabelled(b: int, po: KubePod, r: Replies)
    ensures forall k :: k in Adopt(b, po, r).calls && k.Unlink? ==> HASH_LABEL in k.base.labels
  {
  }

  lemma VisitReleasesLabelled(c: Ctx, b: int, po: KubePod, r: Replies)
    ensures forall k :: k in Visit(c, b, po, r).calls && k.Unlink? ==> HASH_LABEL in k.base.labels
  {
    hide Adopt, MustDelete, InUse, Panics;
    AdoptReleasesLabelled(b, po, r);
  }

  lemma PanickedVisit(c: Ctx, b: int, po: KubePod, r: Replies)
    requires Visit(c, b, po, r).panicked
    ensures Visit(c, b, po, r) == Visited(po, [], b, true)
  {
  }

  lemma ReadKeeps(w: World, r: Replies)
    requires Sound(w) && WithinBudget(w) && Enabled(w, Read(r))
    ensures WithinBudget(Apply(w, Read(r)))
  {
    hide R.Valid, PhaseSound, LiveSound, Visit, UnlinkedNames, Candidate;
    var v := Apply(w, Read(r));
    var po := w.phase.items[0];
    assert Labelled(v) == Labelled(w) && Unlabelled(v) == Unlabelled(w);
    VisitReleasesLabelled(w.phase.ctx, w.phase.budget, po, r);
    if Visit(w.phase.ctx, w.phase.budget, po, r).panicked {
      PanickedVisit(w.phase.ctx, w.phase.budget, po, r);
      NothingUnlinked([]);
    } else {
      VisitUnlinks(w.phase.ctx, w.phase.budget, po, r);
    }
  }

  lemma {:induction false} FirstRelease(pending: seq<Call>)
    requires pending != []
    ensures |UnlinkedNames(pending)| ==
              |UnlinkedNames(pending[1..])| + (if pending[0].Unlink? && pending[0].ok then 1 else 0)
  {
    assert pending == pending[..1] + pending[1..];
    UnlinkedNamesConcat(pending[..1], pending[1..]);
    assert pending[..1][..0] == [] && pending[..1][0] == pending[0];
    assert UnlinkedNames(pending[..1]) ==
           UnlinkedNames([]) + (if pending[0].Unlink? && pending[0].ok then [pending[0].base.name] else []);
  }

  // What one call does to the two sets of names.
  lemma EffectOnLabels(w: World, k: Call)
    requires CallPossible(w, k)
    requires forall n :: n in w.live ==> w.live[n].obj.name == n
    requires k.Unlink? ==> HASH_LABEL in k.base.labels
    ensures Labelled(Effect(w, k)) <= Labelled(w)
    ensures Unlabelled(Effect(w, k)) <=
              (if k.Unlink? && k.ok then Unlabelled(w) + {k.base.name} else Unlabelled(w))
  {
    hide R.Next;
    LabelKeysDiffer();
  }

  lemma LiveNames(w: World)
    requires Sound(w)
    ensures forall n :: n in w.live ==> w.live[n].obj.name == n
  {
    hide R.Valid, FinishedBy, PhaseSound;
    forall n | n in w.live
      ensures w.live[n].obj.name == n
    {
      assert PodSound(n, w.live[n], w.clock);
    }
  }

  // A call adds at most what the list of pending calls loses.
  lemma CallWithinBudget(w: World, k: Call)
    requires Sound(w) && CallPossible(w, k) && (k.Unlink? ==> HASH_LABEL in k.base.labels)
    ensures var e := Effect(w, k);
            && |Labelled(e)| <= |Labelled(w)|
            && |Unlabelled(e)| <= |Unlabelled(w)| + (if k.Unlink? && k.ok then 1 else 0)
  {
    hide Sound, Effect;
    var e := Effect(w, k);
    LiveNames(w);
    EffectOnLabels(w, k);
    SubsetSize(Labelled(e), Labelled(w));
    SubsetSize(Unlabelled(e), if k.Unlink? && k.ok then Unlabelled(w) + {k.base.name} else Unlabelled(w));
  }

  lemma SameCluster(e: World, v: World)
    requires v.live == e.live
    ensures Labelled(v) == Labelled(e) && Unlabelled(v) == Unlabelled(e)
  {
  }

  lemma DoKeeps(w: World)
    requires Sound(w) && WithinBudget(w) && Enabled(w, Do)
    ensures WithinBudget(Apply(w, Do))
  {
    hide Sound, UnlinkedNames, CountUnlabelled, UnlabelledNames, Effect, Labelled, Unlabelled;
    var k := w.phase.pending[0];
    var e := Effect(w, k);
    assert k in w.phase.pending;
    CallWithinBudget(w, k);
    EffectKeepsBooks(w, k);
    FirstRelease(w.phase.pending);
    var v := Apply(w, Do);
    SameCluster(e, v);
    assert forall x :: x in v.phase.pending ==> x in w.phase.pending;
  }

  lemma SameLabels(w: World, v: World)
    requires v.live.Keys == w.live.Keys
    requires forall n :: n in w.live ==> v.live[n].obj.labels == w.live[n].obj.labels
    ensures Labelled(v) == Labelled(w) && Unlabelled(v) == Unlabelled(w)
  {
  }

  lemma ConfigureKeeps(w: World, cfg: Config)
    requires WithinBudget(w) && Enabled(w, Configure(cfg))
    ensures WithinBudget(Apply(w, Configure(cfg)))
  {
    hide UnlinkedNames, CountUnlabelled, UnlabelledNames;
    SameLabels(w, Apply(w, Configure(cfg)));
  }

  lemma ListKeeps(w: World, items: seq<KubePod>, runners: seq<GithubRunner>)
    requires WithinBudget(w) && Enabled(w, List(items, runners))
    ensures WithinBudget(Apply(w, List(items, runners)))
  {
    hide UnlinkedNames, CountUnlabelled, UnlabelledNames;
    SameLabels(w, Apply(w, List(items, runners)));
    SnapshotCounts(w, items);
  }

  lemma StepKeepsBudget(w: World, s: Step)
    requires Sound(w) && WithinBudget(w) && Enabled(w, s)
    ensures WithinBudget(Apply(w, s))
  {
    hide Sound, R.Next, UnlinkedNames, CountUnlabelled, UnlabelledNames, WithinBudget, Snapshot, AfterRead, AfterDo, AfterBegin;
    match s {
      case Create(obj, hasSetup) => CreateKeeps(w, obj, hasSetup);
      case Begin => BeginKeeps(w);
      case Read(r) => ReadKeeps(w, r);
      case Do => DoKeeps(w);
      case Configure(cfg) => ConfigureKeeps(w, cfg);
      case List(items, runners) => ListKeeps(w, items, runners);
      case Vanish(n) => Shrinking(w, Apply(w, s));
      case _ =>
        SameLabels(w, Apply(w, s));
        Shrinking(w, Apply(w, s));
    }
  }

  lemma {:induction false} RunKeepsBudget(w: World, steps: seq<Step>)
    requires Init(w) && Possible(w, steps)
    ensures WithinBudget(After(w, steps))
  {
    hide Sound, Apply, Enabled;
    if steps == [] {
      assert Labelled(w) == {} && Unlabelled(w) == {};
    } else {
      var n := |steps| - 1;
      RunKeepsBudget(w, steps[..n]);
      InitIsSound(w);
      RunKeepsSound(w, steps[..n]);
      StepKeepsBudget(After(w, steps[..n]), steps[n]);
    }
  }

  lemma TotalIsBoth(w: World)
    ensures |w.live| == |Labelled(w)| + |Unlabelled(w)|
  {
    assert w.live.Keys == Labelled(w) + Unlabelled(w);
    assert Labelled(w) !! Unlabelled(w);
  }

  lemma SizeUnlessWrapped(w: World)
    requires WithinBudget(w) && !w.hist.wrapped
    ensures |w.live| <= w.hist.peak + Max(0, w.hist.headroom)
  {
    hide UnlinkedNames, CountUnlabelled, UnlabelledNames;
    TotalIsBoth(w);
  }

  /** A budget counts as wrapped exactly when a pass begins whose difference leaves the int32 range. */
  lemma WrappedExactly(w: World, s: Step)
    requires Enabled(w, s)
    ensures Apply(w, s).hist.wrapped <==>
              || w.hist.wrapped
              || (s.Begin? && !IsInt32(w.cfg.maxRunnerPods - w.cfg.replicas - CountUnlabelled(w.phase.snapshot)))
  {
    hide R.Next, Snapshot, Visit, Effect, CountUnlabelled;
    if s.Do? {
      EffectKeepsBooks(w, w.phase.pending[0]);
    }
  }

  // Settings with at most p replicas and a headroom of at most h.
  predicate Limits(cfg: Config, p: nat, h: int) {
    cfg.replicas <= p && cfg.maxRunnerPods - cfg.replicas <= h
  }

  predicate ConfiguresWithin(s: Step, p: nat, h: int) {
    s.Configure? ==> Limits(s.cfg, p, h)
  }

  // What the settings so far have come to.
  ghost predicate SettingsKept(w: World, p: nat, h: int) {
    !w.hist.wrapped && Limits(w.cfg, p, h) && w.hist.peak <= p && w.hist.headroom <= h
  }

  lemma StepKeepsSettings(u: World, s: Step, p: nat, h: int)
    requires ValidConfig(u.cfg) && WithinBudget(u) && Enabled(u, s)
    requires SettingsKept(u, p, h) && ConfiguresWithin(s, p, h) && p + Max(0, h) <= TWO31
    ensures SettingsKept(Apply(u, s), p, h)
  {
    hide Snapshot, R.Next, Visit, UnlabelledNames, UnlinkedNames, Effect, CountUnlabelled;
    if s.Do? {
      EffectKeepsBooks(u, u.phase.pending[0]);
    }
  }

  lemma SoundConfig(w: World)
    requires Sound(w)
    ensures ValidConfig(w.cfg)
  {
  }

  /** No budget ever overflows as long as the largest replica count and the largest headroom configured
      add up to at most 2^31: a condition on the settings alone. */
  lemma {:induction false} SettingsNeverWrap(w: World, steps: seq<Step>, p: nat, h: int)
    requires Init(w) && Possible(w, steps) && Limits(w.cfg, p, h) && p + Max(0, h) <= TWO31
    requires forall s :: s in steps ==> ConfiguresWithin(s, p, h)
    ensures SettingsKept(After(w, steps), p, h)
  {
    hide Sound, Apply, Enabled, WithinBudget, ConfiguresWithin;
    if steps != [] {
      var n := |steps| - 1;
      SettingsNeverWrap(w, steps[..n], p, h);
      RunKeepsBudget(w, steps[..n]);
      InitIsSound(w);
      RunKeepsSound(w, steps[..n]);
      SoundConfig(After(w, steps[..n]));
      StepKeepsSettings(After(w, steps[..n]), steps[n], p, h);
    }
  }

  /** Over every run, with every change of configuration within these limits: the pool never has more
      pods than the largest replica count plus the largest headroom. */
  lemma PoolSizeBounded(w: World, steps: seq<Step>, p: nat, h: int)
    requires Init(w) && Possible(w, steps) && Limits(w.cfg, p, h) && p + Max(0, h) <= TWO31
    requires forall s :: s in steps ==> ConfiguresWithin(s, p, h)
    ensures |After(w, steps).live| <= p + Max(0, h)
  {
    hide Init, Sound, Apply, Enabled, Possible, After, WithinBudget;
    RunKeepsBudget(w, steps);
    SettingsNeverWrap(w, steps, p, h);
    SizeUnlessWrapped(After(w, steps));
  }

  /** With one configuration, whatever it is, no budget ever overflows and the pool never has more than
      max(replicas, maxRunnerPods) pods. */
  lemma FixedConfigBound(w: World, steps: seq<Step>)
    requires Init(w) && Possible(w, steps)
    requires forall s :: s in steps ==> !s.Configure?
    ensures !After(w, steps).hist.wrapped
    ensures |After(w, steps).live| <= Max(w.cfg.replicas, w.cfg.maxRunnerPods)
  {
    hide Sound, Apply, Enabled, Possible, After;
    var p, h := w.cfg.replicas, w.cfg.maxRunnerPods - w.cfg.replicas;
    PoolSizeBounded(w, steps, p, h);
    SettingsNeverWrap(w, steps, p, h);
  }
}
