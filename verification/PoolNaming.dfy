/** That every pod in use does get its disruption budget and its name while disruption is denied. */
module PoolNaming {
  import R = RunnerPod
  import opened ManagerPass
  import opened VisitProperties
  import opened PoolWorld
  import opened PoolProtection

  // The listed pods that are still to be visited, or visited next.
  function Ahead(phase: Phase): seq<KubePod> {
    match phase
    case Idle => []
    case Listed(items, _) => items
    case Visiting(_, items, _, _) => items
  }

  predicate NameKept(w: World, po: KubePod) {
    HasName(po) && po.name in w.live ==> HasName(w.live[po.name].obj)
  }

  /** A pod that was listed with its name still has it. */
  ghost predicate NamesKept(w: World) {
    forall i :: 0 <= i < |Ahead(w.phase)| ==> NameKept(w, Ahead(w.phase)[i])
  }

  lemma EffectKeepsNames(w: World, k: Call, n: string)
    requires CallPossible(w, k) && n in Effect(w, k).live && n in w.live && HasName(w.live[n].obj)
    ensures HasName(Effect(w, k).live[n].obj)
  {
    hide R.Next;
    LabelKeysDiffer();
  }

  lemma EffectIsOnLivePods(w: World, k: Call, n: string)
    requires CallPossible(w, k) && n in Effect(w, k).live
    ensures n in w.live
  {
    hide R.Next;
  }

  /** No step takes a live pod's name away. */
  lemma StepKeepsNames(w: World, s: Step, n: string)
    requires Sound(w) && Enabled(w, s) && n in w.used && n in Apply(w, s).live
    ensures n in w.live && (HasName(w.live[n].obj) ==> HasName(Apply(w, s).live[n].obj))
  {
    hide Sound, R.Next, Snapshot, AfterRead, Effect;
    match s {
      case Read(r) => AfterReadKeepsCluster(w, r);
      case Do =>
        EffectIsOnLivePods(w, w.phase.pending[0], n);
        if HasName(w.live[n].obj) {
          EffectKeepsNames(w, w.phase.pending[0], n);
        }
      case _ =>
    }
  }

  lemma ListedAreUsed(w: World)
    requires Sound(w)
    ensures forall i :: 0 <= i < |Ahead(w.phase)| ==> Ahead(w.phase)[i].name in w.used
  {
    hide LiveSound, PendingSound;
  }

  // A list is made of the live pods, and then only gets shorter.
  lemma ListedNext(w: World, s: Step)
    requires Enabled(w, s)
    ensures var v := Apply(w, s);
            forall i :: 0 <= i < |Ahead(v.phase)| ==>
              var po := Ahead(v.phase)[i];
              po in Ahead(w.phase) || (po.name in v.live && v.live[po.name].obj == po)
  {
    hide R.Next, Visit, CountUnlabelled, Budget, Effect;
    if s.Do? {
      EffectKeepsBooks(w, w.phase.pending[0]);
    }
  }

  lemma StepKeepsNamesKept(w: World, s: Step)
    requires Sound(w) && NamesKept(w) && Enabled(w, s)
    ensures NamesKept(Apply(w, s))
  {
    hide Sound, HasName, Apply;
    ListedAreUsed(w);
    var v := Apply(w, s);
    ListedNext(w, s);
    forall i | 0 <= i < |Ahead(v.phase)|
      ensures NameKept(v, Ahead(v.phase)[i])
    {
      var po := Ahead(v.phase)[i];
      if po in Ahead(w.phase) {
        var j :| 0 <= j < |Ahead(w.phase)| && Ahead(w.phase)[j] == po;
        assert NameKept(w, Ahead(w.phase)[j]);
        if po.name in v.live {
          StepKeepsNames(w, s, po.name);
        }
      }
    }
  }

  lemma {:induction false} RunKeepsNamesKept(w: World, steps: seq<Step>)
    requires Init(w) && Possible(w, steps)
    ensures NamesKept(After(w, steps))
  {
    hide Sound, Apply, Enabled;
    if steps != [] {
      var n := |steps| - 1;
      RunKeepsNamesKept(w, steps[..n]);
      InitIsSound(w);
      RunKeepsSound(w, steps[..n]);
      StepKeepsNamesKept(After(w, steps[..n]), steps[n]);
    }
  }

  predicate Names(k: Call, n: string) {
    k.Relabel? && k.ok && k.base.name == n
  }

  // An update that gives this pod its name, and will succeed, is due in the present visit.
  ghost predicate NamePending(phase: Phase, n: string) {
    phase.Visiting? && exists k :: k in phase.pending && Names(k, n)
  }

  ghost function Naming(n: string): Phase -> bool {
    phase => NamePending(phase, n)
  }

  // Named already, or about to be.
  ghost predicate NamedSoon(w: World, n: string) {
    n in w.used && (n in w.live ==> HasName(w.live[n].obj) || NamePending(w.phase, n))
  }

  lemma EffectKeepsUsed(w: World, k: Call)
    requires CallPossible(w, k)
    ensures Effect(w, k).used == w.used
  {
    hide R.Next;
  }

  lemma RelabelNames(w: World, k: Call)
    requires CallPossible(w, k) && k.Relabel? && k.ok
    ensures k.base.name in Effect(w, k).live && HasName(Effect(w, k).live[k.base.name].obj)
  {
  }

  lemma DoNames(w: World, n: string)
    requires Sound(w) && Enabled(w, Do) && NamedSoon(w, n)
    ensures NamedSoon(Apply(w, Do), n)
  {
    hide Sound, R.Next, Effect;
    var k := w.phase.pending[0];
    var v := Apply(w, Do);
    EffectKeepsBooks(w, k);
    if n in v.live {
      StepKeepsNames(w, Do, n);
      if NamePending(w.phase, n) {
        var x :| x in w.phase.pending && Names(x, n);
        if x == k {
          RelabelNames(w, k);
        } else {
          assert x in v.phase.pending;
        }
      }
    }
    EffectKeepsUsed(w, k);
  }

  lemma StepKeepsNamedSoon(w: World, s: Step, n: string)
    requires Sound(w) && Enabled(w, s) && NamedSoon(w, n)
    requires !(s.RestartManager? && NamePending(w.phase, n))
    ensures NamedSoon(Apply(w, s), n)
  {
    hide Sound, R.Next, Snapshot, AfterRead, AfterDo, CountUnlabelled, Budget, HasName;
    if s.Do? {
      DoNames(w, n);
    } else {
      if n in Apply(w, s).live {
        StepKeepsNames(w, s, n);
      }
      if s.Read? {
        AfterReadKeepsCluster(w, s.r);
      }
    }
  }

  lemma {:induction false} NamedInTheEnd(v: World, steps: seq<Step>, n: string)
    requires Sound(v) && NamedSoon(v, n) && Possible(v, steps) && Carries(v, steps, Naming(n))
    ensures NamedSoon(After(v, steps), n)
  {
    hide Sound, Apply, Enabled, NamedSoon, NamePending;
    if steps != [] {
      var k := |steps| - 1;
      NamedInTheEnd(v, steps[..k], n);
      RunKeepsSound(v, steps[..k]);
      StepKeepsNamedSoon(After(v, steps[..k]), steps[k], n);
    }
  }

  lemma ReadNames(u: World, r: Replies)
    requires Sound(u) && NamesKept(u) && Enabled(u, Read(r))
    requires Keeps(u.phase.ctx, u.phase.items[0], r) && r.deny && r.pdb && r.relabel
    ensures NamedSoon(Apply(u, Read(r)), u.phase.items[0].name)
  {
    hide LiveSound, PendingSound, Visit, Keeps;
    var po := u.phase.items[0];
    var v := Apply(u, Read(r));
    AfterReadKeepsCluster(u, r);
    assert NameKept(u, Ahead(u.phase)[0]);
    VisitProtects(u.phase.ctx, u.phase.budget, po, r, Relabel(po, true));
    if Get(po.labels, NAME_LABEL) != po.name {
      assert Relabel(po, true) in v.phase.pending && Names(Relabel(po, true), po.name);
    }
  }

  lemma GuardedPod(x: World, n: string)
    requires Guarded(x) && n in x.live && HasName(x.live[n].obj)
    ensures Protected(x.pdbs, n)
  {
    assert PodGuarded(x, n);
  }

  lemma {:induction false} GuardedInTheEnd(v: World, steps: seq<Step>)
    requires Sound(v) && Guarded(v) && Possible(v, steps)
    ensures Guarded(After(v, steps))
  {
    hide Sound, Apply, Enabled, Guarded;
    if steps != [] {
      var n := |steps| - 1;
      GuardedInTheEnd(v, steps[..n]);
      RunKeepsSound(v, steps[..n]);
      StepKeepsGuarded(After(v, steps[..n]), steps[n]);
    }
  }

  /** The promise of denyDisruption, at any budget: once a visit has kept a pod that is busy or finished,
      with denyDisruption read as true, and its calls have been made and succeeded, the pod has its name
      and its budget for as long as it lives. */
  lemma KeptPodIsProtected(w: World, before: seq<Step>, r: Replies, steps: seq<Step>)
    requires Init(w) && Possible(w, before) && Enabled(After(w, before), Read(r))
    requires var u := After(w, before);
             Keeps(u.phase.ctx, u.phase.items[0], r) && r.deny && r.pdb && r.relabel
    requires Possible(Apply(After(w, before), Read(r)), steps)
    ensures var u := After(w, before);
            var n := u.phase.items[0].name;
            var v := Apply(u, Read(r));
            var x := After(v, steps);
            Carries(v, steps, Naming(n)) && !NamePending(x.phase, n) && n in x.live ==>
              HasName(x.live[n].obj) && Protected(x.pdbs, n)
  {
    var u := After(w, before);
    var v := Apply(u, Read(r));
    var n := u.phase.items[0].name;
    hide Init, Sound, Apply, Enabled, Possible, Carries, Keeps, Guarded;
    InitIsSound(w);
    RunKeepsSound(w, before);
    RunKeepsNamesKept(w, before);
    StepKeepsSound(u, Read(r));
    ReadNames(u, r);
    RunKeepsGuarded(w, before);
    StepKeepsGuarded(u, Read(r));
    GuardedInTheEnd(v, steps);
    if Carries(v, steps, Naming(n)) && !NamePending(After(v, steps).phase, n) && n in After(v, steps).live {
      NamedInTheEnd(v, steps, n);
      GuardedPod(After(v, steps), n);
    }
  }
}
