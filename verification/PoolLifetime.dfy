/** How long a finished pod lives, over every run with one extension setting. */
module PoolLifetime {
  import opened Base
  import R = RunnerPod
  import opened ManagerPass
  import opened PassProperties
  import opened Extender
  import opened PoolWorld
  import opened PoolReports

  /** The earliest deadline such a pod can be given: with clicks on "extend" in play, a click that
      beats the controller's own deadline grants one extension from now. */
  function Floor(d: Duration, clicks: bool, finish: Time): Time {
    finish + (if clicks then Min(d, EXTENSION) else d)
  }

  // A deadline this finished pod may hold or be about to get.
  ghost predicate GoodDeadline(t: Time, d: Duration, clicks: bool, finish: Time) {
    if clicks then t >= Floor(d, clicks, finish) else t == finish + d
  }

  ghost predicate PodLife(p: R.Pod, d: Duration, clicks: bool) {
    && (R.MayFinish(p) ==> p.status.deletionTime == None)
    && (p.status.state == R.Debugging && p.status.deletionTime.Some? ==>
          GoodDeadline(p.status.deletionTime.value, d, clicks, FinishTime(p.status)))
  }

  // A deadline on its way to a pod, from the controller or from the agent.
  ghost predicate Sendable(w: World, n: string, t: Time, d: Duration, clicks: bool) {
    n in w.live ==>
      && !R.MayFinish(w.live[n].runner)
      && (w.live[n].runner.status.state == R.Debugging ==>
            GoodDeadline(t, d, clicks, FinishTime(w.live[n].runner.status)))
  }

  ghost predicate CallLife(w: World, k: Call, d: Duration, clicks: bool) {
    k.PutDeadline? ==> Sendable(w, k.name, k.deadline, d, clicks)
  }

  /** No run with the fixed setting d and without the delete button ever shortens a life below the floor. */
  ghost predicate Lives(w: World, d: Duration, clicks: bool) {
    && w.cfg.extendDuration == d
    && (w.phase.Visiting? ==> w.phase.ctx.cfg.extendDuration == d)
    && (forall n :: n in w.live ==> PodLife(w.live[n].runner, d, clicks))
    && (w.phase.Visiting? ==> forall k :: k in w.phase.pending ==> CallLife(w, k, d, clicks) && CallName(k) in w.used)
    && (w.agent.Some? ==> clicks && Sendable(w, w.agent.value.name, w.agent.value.deadline, d, clicks))
  }

  // A step of the runs considered.
  predicate Keeps(s: Step, d: Duration, clicks: bool) {
    && !s.ClickDelete?
    && (s.Configure? ==> s.cfg.extendDuration == d)
    && (s.ClickExtend? ==> clicks)
  }

  // What a step may do to one pod's program: nothing new ends, or an end that had no deadline.
  predicate Onward(p: R.Pod, q: R.Pod) {
    || q == p
    || (q.status.state == R.Debugging && R.MayFinish(p) && !R.MayFinish(q) && q.status.deletionTime == p.status.deletionTime)
    || (q.status.state != R.Debugging && !R.MayFinish(q))
    || (R.MayFinish(p) && R.MayFinish(q) && q.status.state != R.Debugging
        && (q.status.deletionTime == p.status.deletionTime || q.status.deletionTime == None))
    || (p.status.state == R.Debugging && q.status.state == R.Debugging && FinishTime(q.status) == FinishTime(p.status)
        && !R.MayFinish(p) && !R.MayFinish(q) && q.status.deletionTime == p.status.deletionTime)
  }

  lemma ActIsOnward(p: R.Pod, act: R.Step)
    requires R.Valid(p) && !act.Put?
    ensures Onward(p, R.Next(p, act))
  {
  }

  lemma OnwardKeepsLife(p: R.Pod, q: R.Pod, d: Duration, clicks: bool)
    requires PodLife(p, d, clicks) && Onward(p, q)
    ensures PodLife(q, d, clicks)
  {
  }

  lemma PutKeepsLife(p: R.Pod, t: Time, d: Duration, clicks: bool)
    requires PodLife(p, d, clicks) && !R.MayFinish(p)
    requires p.status.state == R.Debugging ==> GoodDeadline(t, d, clicks, FinishTime(p.status))
    ensures PodLife(R.Next(p, R.Put(t)), d, clicks)
    ensures SameEnd(p, R.Next(p, R.Put(t)))
  {
  }

  lemma SendableStays(w: World, v: World, n: string, t: Time, d: Duration, clicks: bool)
    requires Sendable(w, n, t, d, clicks) && n in w.used
    requires n in v.live ==> n in w.live && (Onward(w.live[n].runner, v.live[n].runner) || SameEnd(w.live[n].runner, v.live[n].runner))
    ensures Sendable(v, n, t, d, clicks)
  {
  }

  // A step that only moves programs onward, or removes pods.
  lemma OnwardStep(w: World, v: World, d: Duration, clicks: bool)
    requires Lives(w, d, clicks) && Sound(w)
    requires v.cfg.extendDuration == d && v.used >= w.used
    requires v.phase == w.phase || !v.phase.Visiting? || (v.phase.pending == [] && v.phase.ctx.cfg.extendDuration == d)
    requires v.agent == w.agent || v.agent == None
    requires forall n :: n in v.live ==> n in w.live && Onward(w.live[n].runner, v.live[n].runner)
    ensures Lives(v, d, clicks)
  {
    hide Onward, Sendable, PodLife, LiveSound, PhaseSound;
    forall n | n in v.live
      ensures PodLife(v.live[n].runner, d, clicks)
    {
      OnwardKeepsLife(w.live[n].runner, v.live[n].runner, d, clicks);
    }
    if v.phase.Visiting? {
      forall k | k in v.phase.pending
        ensures CallLife(v, k, d, clicks) && CallName(k) in v.used
      {
        if k.PutDeadline? {
          assert CallLife(w, k, d, clicks);
          SendableStays(w, v, k.name, k.deadline, d, clicks);
        }
      }
    }
    if v.agent.Some? {
      SendableStays(w, v, w.agent.value.name, w.agent.value.deadline, d, clicks);
    }
  }

  lemma SameIsOnward(p: R.Pod)
    ensures Onward(p, p)
  {
  }

  lemma LivesSetting(w: World, d: Duration, clicks: bool)
    requires Lives(w, d, clicks)
    ensures w.cfg.extendDuration == d
    ensures w.phase.Visiting? ==> w.phase.ctx.cfg.extendDuration == d
  {
  }

  lemma InPodLives(w: World, n: string, act: R.Step, d: Duration, clicks: bool)
    requires Sound(w) && Lives(w, d, clicks) && Enabled(w, InPod(n, act))
    ensures Lives(Apply(w, InPod(n, act)), d, clicks)
  {
    hide PhaseSound, R.Next, R.Valid, Lives, Onward;
    assert PodSound(n, w.live[n], w.clock);
    ActIsOnward(w.live[n].runner, act);
    var v := Apply(w, InPod(n, act));
    forall m | m in v.live
      ensures m in w.live && Onward(w.live[m].runner, v.live[m].runner)
    {
      SameIsOnward(w.live[m].runner);
    }
    LivesSetting(w, d, clicks);
    OnwardStep(w, v, d, clicks);
  }

  lemma FreshLife(hasSetup: bool, d: Duration, clicks: bool)
    ensures PodLife(R.Fresh(hasSetup), d, clicks)
  {
  }

  lemma OtherSendable(w: World, v: World, added: string, n: string, t: Time, d: Duration, clicks: bool)
    requires Sendable(w, n, t, d, clicks) && n in w.used && added !in w.used
    requires forall m :: m in v.live && m != added ==> m in w.live && v.live[m] == w.live[m]
    ensures Sendable(v, n, t, d, clicks)
  {
  }

  lemma CreateLives(w: World, obj: KubePod, hasSetup: bool, d: Duration, clicks: bool)
    requires Sound(w) && Lives(w, d, clicks) && Enabled(w, Create(obj, hasSetup))
    ensures Lives(Apply(w, Create(obj, hasSetup)), d, clicks)
  {
    hide PhaseSound, LiveSound, Sendable;
    var v := Apply(w, Create(obj, hasSetup));
    FreshLife(hasSetup, d, clicks);
    if w.phase.Visiting? {
      forall k | k in w.phase.pending
        ensures CallLife(v, k, d, clicks) && CallName(k) in v.used
      {
        assert CallLife(w, k, d, clicks);
        if k.PutDeadline? {
          OtherSendable(w, v, obj.name, k.name, k.deadline, d, clicks);
        }
      }
    }
    if w.agent.Some? {
      OtherSendable(w, v, obj.name, w.agent.value.name, w.agent.value.deadline, d, clicks);
    }
  }

  // Sending a deadline to a pod that may have it.
  lemma PutLives(w: World, n: string, t: Time, d: Duration, clicks: bool)
    requires Sound(w) && Lives(w, d, clicks) && n in w.live && Sendable(w, n, t, d, clicks)
    ensures Lives(SetRunner(w, n, R.Next(w.live[n].runner, R.Put(t))), d, clicks)
  {
    hide PhaseSound, LiveSound, R.Next, PodLife, SameEnd;
    var v := SetRunner(w, n, R.Next(w.live[n].runner, R.Put(t)));
    PutKeepsLife(w.live[n].runner, t, d, clicks);
    forall m | m in v.live
      ensures SameEnd(w.live[m].runner, v.live[m].runner)
    {
      SameIsSame(w.live[m].runner);
    }
    if w.phase.Visiting? {
      forall k | k in w.phase.pending
        ensures CallLife(v, k, d, clicks) && CallName(k) in v.used
      {
        assert CallLife(w, k, d, clicks);
        if k.PutDeadline? {
          SendableStays(w, v, k.name, k.deadline, d, clicks);
        }
      }
    }
    if w.agent.Some? {
      SendableStays(w, v, w.agent.value.name, w.agent.value.deadline, d, clicks);
    }
  }

  lemma SameSendable(w: World, v: World, n: string, t: Time, d: Duration, clicks: bool)
    requires Sendable(w, n, t, d, clicks) && v.live == w.live
    ensures Sendable(v, n, t, d, clicks)
  {
  }

  lemma SettledAgent(w: World, h: History, d: Duration, clicks: bool)
    requires Lives(w, d, clicks)
    ensures Lives(w.(agent := None, hist := h), d, clicks)
  {
    hide PodLife, Sendable;
    if w.phase.Visiting? {
      forall k | k in w.phase.pending
        ensures CallLife(w.(agent := None, hist := h), k, d, clicks)
      {
        assert CallLife(w, k, d, clicks);
        if k.PutDeadline? {
          SameSendable(w, w.(agent := None, hist := h), k.name, k.deadline, d, clicks);
        }
      }
    }
  }

  lemma SendClickLives(w: World, applied: bool, d: Duration, clicks: bool)
    requires Sound(w) && Lives(w, d, clicks) && Enabled(w, SendClick(applied))
    ensures Lives(Apply(w, SendClick(applied)), d, clicks)
  {
    hide R.Next, LiveSound, PhaseSound, PodLife, CallLife;
    var put := w.agent.value;
    var sent := w.(agent := None, hist := if applied then w.hist.(pushed := Pushed(w)) else w.hist);
    SettledAgent(w, sent.hist, d, clicks);
    if applied {
      PutLives(sent, put.name, put.deadline, d, clicks);
    }
  }

  lemma MayFinishIsUntold(w: World, n: string)
    requires Sound(w) && Told(w, n) && n in w.live && Total(w, n) > 0
    ensures !R.MayFinish(w.live[n].runner)
  {
    hide PhaseSound, ToVisit;
    LiveAreUsed(w);
    assert PodSound(n, w.live[n], w.clock);
  }

  lemma ClickLives(w: World, n: string, d: Duration, clicks: bool)
    requires Sound(w) && Lives(w, d, clicks) && Told(w, n) && clicks && Enabled(w, ClickExtend(n))
    ensures Lives(Apply(w, ClickExtend(n)), d, clicks)
  {
    hide PhaseSound, ToVisit, R.Valid;
    var v := Apply(w, ClickExtend(n));
    var p := w.live[n].runner;
    assert PodSound(n, w.live[n], w.clock);
    assert Total(w, n) > 0;
    assert !R.MayFinish(p) by {
      MayFinishIsUntold(w, n);
    }
    if p.status.state == R.Debugging {
      assert PodLife(p, d, clicks);
      FinishPast(p, w.clock);
      assert GoodDeadline(v.agent.value.deadline, d, clicks, FinishTime(p.status));
    }
    assert Sendable(v, n, v.agent.value.deadline, d, clicks);
    SettledAgent(w, w.hist, d, clicks);
    if w.phase.Visiting? {
      forall k | k in w.phase.pending
        ensures CallLife(v, k, d, clicks)
      {
        assert CallLife(w, k, d, clicks);
      }
    }
  }

  // What a visit sends as a deadline.
  lemma VisitPuts(c: Ctx, b: int, po: KubePod, r: Replies)
    ensures forall k :: k in Visit(c, b, po, r).calls && k.PutDeadline? ==>
              && k.name == po.name && r.status.Some?
              && r.status.value.state == R.Debugging && r.status.value.deletionTime == None
              && k.deadline == FinishTime(r.status.value) + c.cfg.extendDuration
  {
    hide Adopt, MustDelete, InUse, Panics, NeedExtend, Notifies;
    AdoptReportsNothing(b, po, r);
  }

  lemma DebuggingIsDone(p: R.Pod)
    requires R.Valid(p) && p.status.state == R.Debugging
    ensures !R.MayFinish(p)
  {
  }

  lemma ReadLives(w: World, r: Replies, d: Duration, clicks: bool)
    requires Sound(w) && Lives(w, d, clicks) && Enabled(w, Read(r))
    ensures Lives(Apply(w, Read(r)), d, clicks)
  {
    hide Visit, PendingSound, R.Valid, PodLife;
    var v := Apply(w, Read(r));
    var po := w.phase.items[0];
    AfterReadKeepsCluster(w, r);
    VisitPuts(w.phase.ctx, w.phase.budget, po, r);
    VisitNamesItsPod(w.phase.ctx, w.phase.budget, po, r);
    forall k | k in v.phase.pending
      ensures CallLife(v, k, d, clicks) && CallName(k) in v.used
    {
      if k.PutDeadline? && po.name in w.live {
        assert PodSound(po.name, w.live[po.name], w.clock);
        DebuggingIsDone(w.live[po.name].runner);
        assert k.deadline >= Floor(d, clicks, FinishTime(r.status.value));
      }
    }
    if w.agent.Some? {
      SameSendable(w, v, w.agent.value.name, w.agent.value.deadline, d, clicks);
    }
  }

  // A call that sets no deadline.
  lemma QuietCallLives(w: World, k: Call, d: Duration, clicks: bool)
    requires Sound(w) && Lives(w, d, clicks) && CallPossible(w, k) && !(k.PutDeadline? && k.applied)
    ensures Lives(Effect(w, k), d, clicks)
  {
    hide Sound, Lives, Onward;
    var e := Effect(w, k);
    forall n | n in e.live
      ensures n in w.live && Onward(w.live[n].runner, e.live[n].runner)
    {
      SameIsOnward(w.live[n].runner);
    }
    LivesSetting(w, d, clicks);
    OnwardStep(w, e, d, clicks);
  }

  lemma ShorterPending(e: World, v: World, d: Duration, clicks: bool)
    requires Lives(e, d, clicks) && e.phase.Visiting? && e.phase.pending != []
    requires v.cfg == e.cfg && v.live == e.live && v.agent == e.agent && v.used == e.used
    requires v.phase == e.phase.(pending := e.phase.pending[1..])
    ensures Lives(v, d, clicks)
  {
    hide PodLife, Sendable;
    forall k | k in v.phase.pending
      ensures CallLife(v, k, d, clicks) && CallName(k) in v.used
    {
      assert k in e.phase.pending && CallLife(e, k, d, clicks);
      if k.PutDeadline? {
        SameSendable(e, v, k.name, k.deadline, d, clicks);
      }
    }
    if e.agent.Some? {
      SameSendable(e, v, e.agent.value.name, e.agent.value.deadline, d, clicks);
    }
  }

  lemma DoLives(w: World, d: Duration, clicks: bool)
    requires Sound(w) && Lives(w, d, clicks) && Enabled(w, Do)
    ensures Lives(Apply(w, Do), d, clicks)
  {
    hide Sound, R.Next, PodLife, Sendable;
    var k := w.phase.pending[0];
    assert k in w.phase.pending && CallLife(w, k, d, clicks);
    if k.PutDeadline? && k.applied {
      PutLives(w, k.name, k.deadline, d, clicks);
    } else {
      QuietCallLives(w, k, d, clicks);
    }
    ShorterPending(Effect(w, k), Apply(w, Do), d, clicks);
  }

  lemma StepKeepsLives(w: World, s: Step, d: Duration, clicks: bool)
    requires Sound(w) && AllTold(w) && Lives(w, d, clicks) && Enabled(w, s) && Keeps(s, d, clicks)
    ensures Lives(Apply(w, s), d, clicks)
  {
    hide Sound, Told, Lives, R.Next, Snapshot, AfterRead, AfterDo, CountUnlabelled, Onward, Extended;
    match s {
      case InPod(n, act) => InPodLives(w, n, act, d, clicks);
      case Create(obj, hasSetup) => CreateLives(w, obj, hasSetup, d, clicks);
      case ClickExtend(n) => ClickLives(w, n, d, clicks);
      case SendClick(applied) => SendClickLives(w, applied, d, clicks);
      case Read(r) => ReadLives(w, r, d, clicks);
      case Do => DoLives(w, d, clicks);
      case ClickDelete(_) => assert false;
      case _ =>
        LivesSetting(w, d, clicks);
        var v := Apply(w, s);
        forall n | n in v.live
          ensures n in w.live && Onward(w.live[n].runner, v.live[n].runner)
        {
          SameIsOnward(w.live[n].runner);
        }
        OnwardStep(w, v, d, clicks);
    }
  }

  lemma {:induction false} RunKeepsLives(w: World, steps: seq<Step>, d: Duration, clicks: bool)
    requires Init(w) && w.cfg.extendDuration == d && Possible(w, steps)
    requires forall s :: s in steps ==> Keeps(s, d, clicks)
    ensures Sound(After(w, steps)) && Lives(After(w, steps), d, clicks)
  {
    hide Sound, Apply, Enabled, AllTold;
    InitIsSound(w);
    RunKeepsSound(w, steps);
    if steps != [] {
      var n := |steps| - 1;
      RunKeepsLives(w, steps[..n], d, clicks);
      RunKeepsTold(w, steps[..n]);
      StepKeepsLives(After(w, steps[..n]), steps[n], d, clicks);
    }
  }

  // The present visit asks for the deletion of its pod.
  ghost predicate Condemns(w: World, r: Replies)
    requires w.phase.Visiting? && w.phase.items != []
  {
    exists applied :: Delete(w.phase.items[0].name, applied) in AfterRead(w, r).phase.pending
  }

  lemma CondemnsByRule(w: World, r: Replies)
    requires Sound(w) && Enabled(w, Read(r)) && !Visit(w.phase.ctx, w.phase.budget, w.phase.items[0], r).panicked
    ensures Condemns(w, r) <==> Deletable(w.phase.ctx, w.phase.items[0], r)
  {
    hide Visit, Deletable, Sound;
    var po := w.phase.items[0];
    VisitDeletes(w.phase.ctx, w.phase.budget, po, r, po.name, r.deleted);
    if applied :| Delete(po.name, applied) in AfterRead(w, r).phase.pending {
      VisitDeletes(w.phase.ctx, w.phase.budget, po, r, po.name, applied);
    }
  }

  /** The status that a pass reads never makes it dereference nil. */
  lemma ReadNeverPanics(w: World, r: Replies)
    requires Sound(w) && Enabled(w, Read(r))
    ensures !Visit(w.phase.ctx, w.phase.budget, w.phase.items[0], r).panicked
  {
    hide MustDelete, InUse, Report, SetDeadline, PhaseSound;
    var po := w.phase.items[0];
    if r.status.Some? {
      assert PodSound(po.name, w.live[po.name], w.clock);
    }
  }

  /** Without the Slack buttons, in every run with the setting D: a visit that reads the end, at F, of a
      pod that asked for extension condemns it exactly when now > F + D, whether or not any deadline the
      controller sent ever arrived. What a deletion that lands was decided on is PoolDeletion's subject. */
  lemma DeletedExactlyAfterExtension(w: World, steps: seq<Step>, r: Replies, d: Duration)
    requires Init(w) && w.cfg.extendDuration == d && d != 0 && Possible(w, steps)
    requires forall s :: s in steps ==> Keeps(s, d, false)
    requires Enabled(After(w, steps), Read(r)) && After(w, steps).phase.items[0].running
    requires r.status.Some? && r.status.value.state == R.Debugging && r.status.value.extend == Some(true)
    ensures var u := After(w, steps);
            Condemns(u, r) <==> u.phase.ctx.now > FinishTime(r.status.value) + d
  {
    hide Init, Sound, Possible, After, Visit;
    RunKeepsLives(w, steps, d, false);
    var u := After(w, steps);
    ReadNeverPanics(u, r);
    CondemnsByRule(u, r);
    var n := u.phase.items[0].name;
    assert PodLife(u.live[n].runner, d, false);
  }

  /** With any clicks on "extend", interleaved with the controller at every call, no visit that reads such
      an end condemns the pod before its floor: the setting, or one extension if that is less. */
  lemma NeverDeletedBeforeFloor(w: World, steps: seq<Step>, r: Replies, d: Duration)
    requires Init(w) && w.cfg.extendDuration == d && d != 0 && Possible(w, steps)
    requires forall s :: s in steps ==> Keeps(s, d, true)
    requires Enabled(After(w, steps), Read(r)) && After(w, steps).phase.items[0].running
    requires r.status.Some? && r.status.value.state == R.Debugging && r.status.value.extend == Some(true)
    requires Condemns(After(w, steps), r)
    ensures After(w, steps).phase.ctx.now > FinishTime(r.status.value) + Min(d, EXTENSION)
  {
    hide Init, Sound, Possible, After, Visit;
    RunKeepsLives(w, steps, d, true);
    var u := After(w, steps);
    ReadNeverPanics(u, r);
    CondemnsByRule(u, r);
    var n := u.phase.items[0].name;
    assert PodLife(u.live[n].runner, d, true);
  }

  // A deletion of this pod, which will succeed, is due in the present visit.
  predicate DeletePending(phase: Phase, n: string) {
    phase.Visiting? && Delete(n, true) in phase.pending
  }

  function Deleting(n: string): Phase -> bool {
    phase => DeletePending(phase, n)
  }

  lemma AppliedDeleteRemoves(w: World, n: string)
    requires Enabled(w, Do) && DeletePending(w.phase, n)
    ensures n !in Apply(w, Do).live || DeletePending(Apply(w, Do).phase, n)
  {
    hide R.Next;
    var k := w.phase.pending[0];
    assert w.phase.pending == [k] + w.phase.pending[1..];
    EffectKeepsBooks(w, k);
  }

  // A pod that is gone stays so, and a due deletion is made unless the manager dies first.
  lemma StepKeepsDoomed(w: World, s: Step, n: string)
    requires Enabled(w, s) && n in w.used
    ensures var v := Apply(w, s);
            && n in v.used
            && (n !in w.live ==> n !in v.live)
            && (DeletePending(w.phase, n) && !s.RestartManager? ==> n !in v.live || DeletePending(v.phase, n))
  {
    hide R.Next, Snapshot, Visit, Effect;
    match s {
      case Read(r) => AfterReadKeepsCluster(w, r);
      case Do =>
        EffectOnPods(w, w.phase.pending[0], n);
        if DeletePending(w.phase, n) {
          AppliedDeleteRemoves(w, n);
        }
      case _ =>
    }
  }

  lemma {:induction false} DoomedIsGone(v: World, steps: seq<Step>, n: string)
    requires Possible(v, steps) && n in v.used && DeletePending(v.phase, n)
    ensures var x := After(v, steps);
            && n in x.used
            && (Carries(v, steps, Deleting(n)) ==> n !in x.live || DeletePending(x.phase, n))
  {
    hide Apply, Enabled, DeletePending;
    if steps != [] {
      var k := |steps| - 1;
      DoomedIsGone(v, steps[..k], n);
      StepKeepsDoomed(After(v, steps[..k]), steps[k], n);
    }
  }

  lemma VisitedAreUsed(u: World, r: Replies)
    requires Sound(u) && Enabled(u, Read(r))
    ensures u.phase.items[0].name in Apply(u, Read(r)).used
  {
    hide Visit, LiveSound;
    AfterReadKeepsCluster(u, r);
  }

  /** A condemned pod whose deletion succeeds is gone, for good, once the visit's calls have been made:
      in every continuation, unless the manager dies before that call. */
  lemma CondemnedIsGone(w: World, before: seq<Step>, r: Replies, steps: seq<Step>)
    requires Init(w) && Possible(w, before) && Enabled(After(w, before), Read(r))
    requires Condemns(After(w, before), r) && r.deleted
    requires Possible(Apply(After(w, before), Read(r)), steps)
    ensures var u := After(w, before);
            var n := u.phase.items[0].name;
            var v := Apply(u, Read(r));
            var x := After(v, steps);
            Carries(v, steps, Deleting(n)) && !DeletePending(x.phase, n) ==> n !in x.live
  {
    hide Init, Sound, Possible, After, Visit, Carries, LiveSound;
    InitIsSound(w);
    RunKeepsSound(w, before);
    var u := After(w, before);
    var po := u.phase.items[0];
    ReadNeverPanics(u, r);
    var applied :| Delete(po.name, applied) in AfterRead(u, r).phase.pending;
    VisitDeletes(u.phase.ctx, u.phase.budget, po, r, po.name, applied);
    VisitedAreUsed(u, r);
    DoomedIsGone(Apply(u, Read(r)), steps, po.name);
  }

  /** The life of a finished pod that asked for extension, without the Slack buttons and with the setting
      D: the first visit that reads its end with now > F + D, and whose deletion succeeds and is made,
      ends it, in every continuation; and a visit that reads its end with an earlier now asks for no
      deletion at all. */
  lemma EndsExactlyAfterExtension(w: World, before: seq<Step>, r: Replies, steps: seq<Step>, d: Duration)
    requires Init(w) && w.cfg.extendDuration == d && d != 0 && Possible(w, before)
    requires forall s :: s in before ==> Keeps(s, d, false)
    requires Enabled(After(w, before), Read(r)) && After(w, before).phase.items[0].running
    requires r.status.Some? && r.status.value.state == R.Debugging && r.status.value.extend == Some(true) && r.deleted
    requires Possible(Apply(After(w, before), Read(r)), steps)
    ensures var u := After(w, before);
            var n := u.phase.items[0].name;
            var v := Apply(u, Read(r));
            var x := After(v, steps);
            if u.phase.ctx.now > FinishTime(r.status.value) + d then
              Carries(v, steps, Deleting(n)) && !DeletePending(x.phase, n) ==> n !in x.live
            else
              v.phase.Visiting? && forall applied :: Delete(n, applied) !in v.phase.pending
  {
    hide Init, Possible, After, Visit, Carries, Sound;
    DeletedExactlyAfterExtension(w, before, r, d);
    if Condemns(After(w, before), r) {
      CondemnedIsGone(w, before, r, steps);
    }
  }

  /** In every run a pod read as stale is condemned, by the first pass that reaches it. */
  lemma StaleIsCondemned(w: World, steps: seq<Step>, r: Replies)
    requires Init(w) && Possible(w, steps) && Enabled(After(w, steps), Read(r))
    requires After(w, steps).phase.items[0].running && r.status.Some? && r.status.value.state == R.Stale
    ensures Condemns(After(w, steps), r)
  {
    hide Init, Sound, Possible, After, Visit;
    InitIsSound(w);
    RunKeepsSound(w, steps);
    ReadNeverPanics(After(w, steps), r);
    CondemnsByRule(After(w, steps), r);
  }
}
