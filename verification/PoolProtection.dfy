/** Busy pods are protected by a disruption budget before they are named, and named before they are
    released, in every reachable world. */
module PoolProtection {
  import R = RunnerPod
  import opened ManagerPass
  import opened PoolWorld

  predicate Selects(pdb: Pdb, labels: Labels) {
    forall k :: k in pdb.selects ==> k in labels && labels[k] == pdb.selects[k]
  }

  // A budget of one available pod for the pods named n.
  predicate Protected(pdbs: map<string, Pdb>, n: string) {
    n in pdbs && pdbs[n] == Pdb(map[NAME_LABEL := n], 1)
  }

  predicate HasName(po: KubePod) {
    NAME_LABEL in po.labels && po.labels[NAME_LABEL] == po.name
  }

  predicate ObjGuarded(po: KubePod, n: string, pdbs: map<string, Pdb>, undenied: set<string>) {
    && po.name == n
    && (NAME_LABEL in po.labels ==> HasName(po) && Protected(pdbs, n))
    && (n !in undenied && HASH_LABEL !in po.labels ==> HasName(po))
  }

  ghost predicate PodGuarded(w: World, n: string)
    requires n in w.live
  {
    ObjGuarded(w.live[n].obj, n, w.pdbs, w.hist.undenied)
  }

  // A relabelling comes right after the successful protection of the same pod, unless that is done;
  // a release by a visit that demands protection is of a named pod.
  ghost predicate CallGuarded(w: World, i: int)
    requires w.phase.Visiting? && 0 <= i < |w.phase.pending|
  {
    var k := w.phase.pending[i];
    && (k.Relabel? ==> Protected(w.pdbs, k.base.name)
                       || (i > 0 && w.phase.pending[i - 1] == Protect(k.base.name, true)))
    && (k.Unlink? && Denying(w.hist) ==> HasName(k.base))
  }

  ghost predicate Guarded(w: World) {
    && (forall n :: n in w.live ==> PodGuarded(w, n))
    && (w.phase.Visiting? ==> forall i :: 0 <= i < |w.phase.pending| ==> CallGuarded(w, i))
  }

  ghost predicate InOrder(calls: seq<Call>, i: int, po: KubePod, r: Replies)
    requires 0 <= i < |calls|
  {
    && (calls[i].Relabel? ==> i > 0 && calls[i - 1] == Protect(calls[i].base.name, true))
    && (calls[i].Unlink? && r.deny && po.name != "" ==> HasName(calls[i].base))
  }

  lemma AdoptGuards(b: int, po: KubePod, r: Replies)
    ensures var calls := Adopt(b, po, r).calls;
            forall i :: 0 <= i < |calls| ==> InOrder(calls, i, po, r)
  {
  }

  lemma VisitGuards(c: Ctx, b: int, po: KubePod, r: Replies)
    ensures var calls := Visit(c, b, po, r).calls;
            forall i :: 0 <= i < |calls| ==> InOrder(calls, i, po, r)
  {
    hide Adopt, MustDelete, InUse, Panics;
    AdoptGuards(b, po, r);
    var calls := Visit(c, b, po, r).calls;
    if po.running && r.status.Some? && !Panics(c, r.status.value) && !MustDelete(c, po, r.status.value)
       && InUse(c, po, r.status.value) {
      var pre := Report(c, po, r.status.value, r) + SetDeadline(c, po, r.status.value, r);
      var more := Adopt(b, po, r).calls;
      assert calls == pre + more;
      forall i | 0 <= i < |calls|
        ensures InOrder(calls, i, po, r)
      {
        if i < |pre| {
          assert calls[i] == pre[i] && !pre[i].Relabel? && !pre[i].Unlink?;
        } else {
          assert calls[i] == more[i - |pre|];
          assert InOrder(more, i - |pre|, po, r);
          if calls[i].Relabel? {
            assert calls[i - 1] == more[i - 1 - |pre|];
          }
        }
      }
    } else {
      assert forall i :: 0 <= i < |calls| ==> !calls[i].Relabel? && !calls[i].Unlink?;
    }
  }

  lemma ReadGuards(w: World, r: Replies)
    requires Sound(w) && Guarded(w) && Enabled(w, Read(r))
    ensures Guarded(Apply(w, Read(r)))
  {
    hide Visit, LiveSound, PendingSound;
    var v := Apply(w, Read(r));
    var po := w.phase.items[0];
    AfterReadKeepsCluster(w, r);
    VisitGuards(w.phase.ctx, w.phase.budget, po, r);
    forall n | n in v.live
      ensures PodGuarded(v, n)
    {
      assert PodGuarded(w, n);
    }
    forall i | 0 <= i < |v.phase.pending|
      ensures CallGuarded(v, i)
    {
      var calls := Visit(w.phase.ctx, w.phase.budget, po, r).calls;
      assert v.phase.pending == calls && Denying(v.hist) == r.deny;
      assert po.name in w.used && po.name != "";
      assert InOrder(calls, i, po, r);
    }
  }

  lemma EffectGuards(w: World, k: Call)
    requires CallPossible(w, k)
    requires forall n :: n in w.live ==> PodGuarded(w, n)
    requires k.Relabel? ==> Protected(w.pdbs, k.base.name)
    requires k.Unlink? && Denying(w.hist) ==> HasName(k.base)
    ensures var e := Effect(w, k);
            forall n :: n in e.live ==> ObjGuarded(e.live[n].obj, n, e.pdbs, Undenied(w.hist, k))
  {
    hide R.Next;
    LabelKeysDiffer();
    var e := Effect(w, k);
    forall n | n in e.live
      ensures ObjGuarded(e.live[n].obj, n, e.pdbs, Undenied(w.hist, k))
    {
      assert PodGuarded(w, n);
    }
  }

  lemma EffectKeepsProtection(w: World, k: Call, n: string)
    requires CallPossible(w, k)
    ensures Protected(w.pdbs, n) ==> Protected(Effect(w, k).pdbs, n)
    ensures k == Protect(n, true) ==> Protected(Effect(w, k).pdbs, n)
  {
    hide R.Next;
  }

  lemma DoGuards(w: World)
    requires Guarded(w) && Enabled(w, Do)
    ensures Guarded(Apply(w, Do))
  {
    hide Effect, ObjGuarded, R.Next;
    var k := w.phase.pending[0];
    assert CallGuarded(w, 0);
    EffectGuards(w, k);
    EffectKeepsBooks(w, k);
    var e := Effect(w, k);
    var v := Apply(w, Do);
    forall n | n in v.live
      ensures PodGuarded(v, n)
    {
      assert v.live == e.live && v.pdbs == e.pdbs && v.hist.undenied == Undenied(w.hist, k);
    }
    forall i | 0 <= i < |v.phase.pending|
      ensures CallGuarded(v, i)
    {
      assert CallGuarded(w, i + 1);
      assert v.phase.pending[i] == w.phase.pending[i + 1];
      if v.phase.pending[i].Relabel? {
        EffectKeepsProtection(w, k, v.phase.pending[i].base.name);
      }
    }
  }

  // A step that leaves labels, budgets and pending calls alone, or removes pods.
  lemma QuietStep(w: World, v: World)
    requires Guarded(w)
    requires v.pdbs == w.pdbs && v.hist.undenied == w.hist.undenied
    requires v.phase.Visiting? && v.phase.pending != [] ==> v.hist.seen == w.hist.seen
    requires forall n :: n in v.live ==>
               n in w.live && v.live[n].obj.labels == w.live[n].obj.labels && v.live[n].obj.name == w.live[n].obj.name
    requires v.phase == w.phase || !v.phase.Visiting? || v.phase.pending == []
    ensures Guarded(v)
  {
    forall n | n in v.live
      ensures PodGuarded(v, n)
    {
      assert PodGuarded(w, n);
    }
    if v.phase.Visiting? {
      forall i | 0 <= i < |v.phase.pending|
        ensures CallGuarded(v, i)
      {
        assert CallGuarded(w, i);
      }
    }
  }

  lemma CreateGuards(w: World, obj: KubePod, hasSetup: bool)
    requires Guarded(w) && Enabled(w, Create(obj, hasSetup))
    ensures Guarded(Apply(w, Create(obj, hasSetup)))
  {
    var v := Apply(w, Create(obj, hasSetup));
    forall n | n in v.live
      ensures PodGuarded(v, n)
    {
      if n != obj.name {
        assert PodGuarded(w, n);
      }
    }
    if v.phase.Visiting? {
      forall i | 0 <= i < |v.phase.pending|
        ensures CallGuarded(v, i)
      {
        assert CallGuarded(w, i);
      }
    }
  }

  lemma StepKeepsGuarded(w: World, s: Step)
    requires Sound(w) && Guarded(w) && Enabled(w, s)
    ensures Guarded(Apply(w, s))
  {
    hide Sound, R.Next, Snapshot, AfterRead, AfterDo, CountUnlabelled, Guarded;
    match s {
      case Create(obj, hasSetup) => CreateGuards(w, obj, hasSetup);
      case Read(r) => ReadGuards(w, r);
      case Do => DoGuards(w);
      case _ => QuietStep(w, Apply(w, s));
    }
  }

  lemma InitGuarded(w: World)
    requires Init(w)
    ensures Guarded(w)
  {
  }

  lemma {:induction false} RunKeepsGuarded(w: World, steps: seq<Step>)
    requires Init(w) && Possible(w, steps)
    ensures Guarded(After(w, steps))
  {
    hide Sound, Apply, Enabled, Guarded;
    if steps == [] {
      InitGuarded(w);
    } else {
      var n := |steps| - 1;
      RunKeepsGuarded(w, steps[..n]);
      InitIsSound(w);
      RunKeepsSound(w, steps[..n]);
      StepKeepsGuarded(After(w, steps[..n]), steps[n]);
    }
  }

  /** In every reachable world, manager crashes and API errors between any two calls included, a live
      pod that carries its own name as a label has a budget that keeps one pod and selects it alone. */
  lemma NamedPodsAreProtected(w: World, steps: seq<Step>, n: string)
    requires Init(w) && Possible(w, steps)
    requires n in After(w, steps).live && Get(After(w, steps).live[n].obj.labels, NAME_LABEL) == n && n != ""
    ensures var v := After(w, steps);
            && n in v.pdbs && v.pdbs[n].minAvailable == 1
            && Selects(v.pdbs[n], v.live[n].obj.labels)
            && forall m :: m in v.live && m != n ==> !Selects(v.pdbs[n], v.live[m].obj.labels)
  {
    hide Init, Sound, Apply, Enabled, Possible, After;
    RunKeepsGuarded(w, steps);
    var v := After(w, steps);
    assert PodGuarded(v, n);
    forall m | m in v.live && m != n
      ensures !Selects(v.pdbs[n], v.live[m].obj.labels)
    {
      assert PodGuarded(v, m);
      assert NAME_LABEL in v.pdbs[n].selects;
    }
  }

  /** Every live pod without its ReplicaSet label has a budget of its own, unless the very visit that
      released it read denyDisruption as false, whatever other visits, of this pod or others, have read. */
  lemma ReleasedPodsAreProtected(w: World, steps: seq<Step>, n: string)
    requires Init(w) && Possible(w, steps)
    requires n in After(w, steps).live && HASH_LABEL !in After(w, steps).live[n].obj.labels
    requires n !in After(w, steps).hist.undenied
    ensures Protected(After(w, steps).pdbs, n)
  {
    hide Init, Sound, Apply, Enabled, Possible, After;
    RunKeepsGuarded(w, steps);
    assert PodGuarded(After(w, steps), n);
  }

  /** ... where a pod counts as released by such a visit exactly when a release succeeds in one. */
  lemma UndeniedExactly(w: World, s: Step, n: string)
    requires Enabled(w, s)
    ensures n in Apply(w, s).hist.undenied && n !in w.hist.undenied <==>
              && n !in w.hist.undenied && s.Do? && w.phase.pending[0].Unlink? && w.phase.pending[0].ok
              && w.phase.pending[0].base.name == n && !Denying(w.hist)
    ensures n in w.hist.undenied ==> n in Apply(w, s).hist.undenied
  {
    hide R.Next, Snapshot, Visit, Effect;
    if s.Do? {
      EffectKeepsBooks(w, w.phase.pending[0]);
    }
  }
}
