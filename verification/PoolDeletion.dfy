/** What a deletion was decided on when it lands: a visit reads its pod first and deletes it later, and
    in between the pod may publish the end of its job. */
module PoolDeletion {
  import opened Base
  import R = RunnerPod
  import opened ManagerPass
  import opened PassProperties
  import opened PoolWorld
  import opened PoolReports
  import opened PoolLifetime
  import opened PoolTrace

  // The listed pod and the reply of the present visit.
  ghost predicate InVisit(w: World) {
    w.phase.Visiting? && w.hist.seen != [] && |w.hist.seen| <= |w.hist.all|
  }

  function VisitedPod(w: World): KubePod
    requires InVisit(w)
  {
    w.hist.all[|w.hist.seen| - 1]
  }

  function LastReply(w: World): Replies
    requires InVisit(w)
  {
    w.hist.seen[|w.hist.seen| - 1]
  }

  predicate AskedForExtension(st: R.Status) {
    st.state == R.Debugging && st.extend == Some(true)
  }

  /** What a pod can be once this status of it was read: "debugging" and "stale" are its last words,
      but for its deadline and a restart. */
  predicate Follows(st: R.Status, p: R.Pod) {
    match st.state
    case Stale => !R.MayFinish(p) && p.status.state != R.Debugging
    case Debugging =>
      !R.MayFinish(p) && (p.status.state == R.Debugging ==> p.status.(deletionTime := st.deletionTime) == st)
    case _ => true
  }

  // The present visit's read condemned this pod, and the pod has not finished since unless it was
  // read before its end.
  ghost predicate Decided(w: World, n: string, d: Duration, clicks: bool) {
    && InVisit(w)
    && VisitedPod(w).name == n && Deletable(w.phase.ctx, VisitedPod(w), LastReply(w))
    && (var st := LastReply(w).status.value;
        && (AskedForExtension(st) && d != 0 ==> w.phase.ctx.now > Floor(d, clicks, FinishTime(st)))
        && (n in w.live ==> Follows(st, w.live[n].runner)))
  }

  /** Every pending deletion was decided by the read of its visit. */
  ghost predicate Deciding(w: World, d: Duration, clicks: bool) {
    w.phase.Visiting? ==> forall k :: k in w.phase.pending && k.Delete? ==> Decided(w, k.name, d, clicks)
  }

  lemma NextFollows(st: R.Status, p: R.Pod, act: R.Step)
    requires R.Valid(p) && Follows(st, p)
    ensures Follows(st, R.Next(p, act))
  {
    R.FinishIsFinal(p, act);
  }

  lemma ServedFollows(p: R.Pod)
    requires R.Valid(p)
    ensures Follows(p.status, p)
  {
  }

  ghost predicate Moves(p: R.Pod, q: R.Pod) {
    q == p || exists act :: q == R.Next(p, act)
  }

  // A step that leaves the visit alone and moves the programs of live pods by one act at most.
  lemma DecidedStays(w: World, v: World, n: string, d: Duration, clicks: bool)
    requires Decided(w, n, d, clicks) && Sound(w)
    requires v.phase.Visiting? && v.phase.ctx == w.phase.ctx && v.hist.seen == w.hist.seen && v.hist.all == w.hist.all
    requires n in v.live ==> n in w.live && Moves(w.live[n].runner, v.live[n].runner)
    ensures Decided(v, n, d, clicks)
  {
    hide R.Valid, R.Next, PhaseSound, MustDelete, Follows;
    if n in v.live {
      assert PodSound(n, w.live[n], w.clock);
      if v.live[n].runner != w.live[n].runner {
        var act :| v.live[n].runner == R.Next(w.live[n].runner, act);
        NextFollows(LastReply(w).status.value, w.live[n].runner, act);
      }
    }
  }

  lemma EffectMoves(w: World, k: Call, n: string)
    requires CallPossible(w, k)
    ensures n in Effect(w, k).live ==> n in w.live && Moves(w.live[n].runner, Effect(w, k).live[n].runner)
  {
    hide R.Next;
  }

  lemma QuietDeciding(w: World, v: World, d: Duration, clicks: bool)
    requires Sound(w) && Deciding(w, d, clicks)
    requires v.phase.Visiting? && v.phase.pending != [] ==>
               && w.phase.Visiting? && v.phase.ctx == w.phase.ctx && (forall k :: k in v.phase.pending ==> k in w.phase.pending)
               && v.hist.seen == w.hist.seen && v.hist.all == w.hist.all
    requires forall n :: n in v.live && n in w.used ==> n in w.live && Moves(w.live[n].runner, v.live[n].runner)
    ensures Deciding(v, d, clicks)
  {
    hide Decided, Moves, LiveSound, ListSound;
    if v.phase.Visiting? {
      forall k | k in v.phase.pending && k.Delete?
        ensures Decided(v, k.name, d, clicks)
      {
        var i :| 0 <= i < |w.phase.pending| && w.phase.pending[i] == k;
        assert PendingCallSound(w.phase.pending[i], CallName(w.phase.pending[0]), w.phase.items, w.used);
        DecidedStays(w, v, k.name, d, clicks);
      }
    }
  }

  lemma ReadFollows(w: World, r: Replies)
    requires Sound(w) && Enabled(w, Read(r)) && r.status.Some?
    ensures Follows(r.status.value, w.live[w.phase.items[0].name].runner)
  {
    hide Follows, PhaseSound, R.Valid;
    var n := w.phase.items[0].name;
    assert PodSound(n, w.live[n], w.clock);
    ServedFollows(w.live[n].runner);
  }

  lemma ReadIsPastFloor(w: World, r: Replies, d: Duration, clicks: bool)
    requires Lives(w, d, clicks) && Enabled(w, Read(r)) && Deletable(w.phase.ctx, w.phase.items[0], r)
    requires d != 0 && AskedForExtension(r.status.value)
    ensures w.phase.ctx.now > Floor(d, clicks, FinishTime(r.status.value))
  {
    assert PodLife(w.live[w.phase.items[0].name].runner, d, clicks);
  }

  lemma ReadDecides(w: World, r: Replies, d: Duration, clicks: bool)
    requires Sound(w) && Traced(w) && Lives(w, d, clicks) && Enabled(w, Read(r))
    ensures Deciding(Apply(w, Read(r)), d, clicks)
  {
    hide Visit, Pass, PhaseSound, LiveSound, R.Valid, Follows;
    var v := Apply(w, Read(r));
    var po := w.phase.items[0];
    ReadNeverPanics(w, r);
    AfterReadKeepsCluster(w, r);
    VisitNamesItsPod(w.phase.ctx, w.phase.budget, po, r);
    assert v.hist.all[|v.hist.seen| - 1] == po;
    forall k | k in v.phase.pending && k.Delete?
      ensures Decided(v, k.name, d, clicks)
    {
      VisitDeletes(w.phase.ctx, w.phase.budget, po, r, k.name, k.applied);
      ReadFollows(w, r);
      if d != 0 && AskedForExtension(r.status.value) {
        ReadIsPastFloor(w, r, d, clicks);
      }
    }
  }

  lemma CreateDeciding(w: World, obj: KubePod, hasSetup: bool, d: Duration, clicks: bool)
    requires Sound(w) && Deciding(w, d, clicks) && Enabled(w, Create(obj, hasSetup))
    ensures Deciding(Apply(w, Create(obj, hasSetup)), d, clicks)
  {
    hide Deciding, Sound;
    QuietDeciding(w, Apply(w, Create(obj, hasSetup)), d, clicks);
  }

  lemma DoDeciding(w: World, d: Duration, clicks: bool)
    requires Sound(w) && Deciding(w, d, clicks) && Enabled(w, Do)
    ensures Deciding(Apply(w, Do), d, clicks)
  {
    hide Sound, Deciding, Effect, Moves;
    var k := w.phase.pending[0];
    var v := Apply(w, Do);
    EffectKeepsBooks(w, k);
    forall n | n in v.live
      ensures n in w.live && Moves(w.live[n].runner, v.live[n].runner)
    {
      EffectMoves(w, k, n);
    }
    assert forall x :: x in v.phase.pending ==> x in w.phase.pending;
    QuietDeciding(w, v, d, clicks);
  }

  lemma StepKeepsDeciding(w: World, s: Step, d: Duration, clicks: bool)
    requires Sound(w) && Traced(w) && Lives(w, d, clicks) && Deciding(w, d, clicks) && Enabled(w, s)
    ensures Deciding(Apply(w, s), d, clicks)
  {
    hide Sound, Traced, Lives, Deciding, R.Next, Snapshot, AfterRead, AfterDo, CountUnlabelled, Budget;
    match s {
      case Read(r) => ReadDecides(w, r, d, clicks);
      case Create(obj, hasSetup) => CreateDeciding(w, obj, hasSetup, d, clicks);
      case Do => DoDeciding(w, d, clicks);
      case _ => QuietDeciding(w, Apply(w, s), d, clicks);
    }
  }

  lemma {:induction false} RunKeepsDeciding(w: World, steps: seq<Step>, d: Duration, clicks: bool)
    requires Init(w) && w.cfg.extendDuration == d && Possible(w, steps)
    requires forall s :: s in steps ==> Keeps(s, d, clicks)
    ensures Deciding(After(w, steps), d, clicks)
  {
    hide Sound, Apply, Enabled, Traced, Lives, Keeps;
    if steps != [] {
      var n := |steps| - 1;
      RunKeepsDeciding(w, steps[..n], d, clicks);
      RunKeepsLives(w, steps[..n], d, clicks);
      RunKeepsTraced(w, steps[..n]);
      StepKeepsDeciding(After(w, steps[..n]), steps[n], d, clicks);
    }
  }

  // The visit read its pod as neither finished nor stale, and condemned it for its age: past the
  // recreate deadline, and not busy in the list of runners fetched before.
  ghost predicate CondemnedForAge(w: World) {
    && InVisit(w) && LastReply(w).status.Some?
    && LastReply(w).status.value.state != R.Debugging && LastReply(w).status.value.state != R.Stale
    && w.phase.ctx.now > VisitedPod(w).created + w.phase.ctx.cfg.recreateDeadline
    && !BusyIn(w.phase.ctx.runners, VisitedPod(w).name)
  }

  // The visit read the end of this pod's job.
  ghost predicate ReadTheEnd(w: World, st: R.Status) {
    InVisit(w) && LastReply(w).status.Some? && LastReply(w).status.value.(deletionTime := st.deletionTime) == st
  }

  lemma Landed(u: World, n: string, d: Duration, clicks: bool)
    requires Deciding(u, d, clicks) && d != 0 && Enabled(u, Do) && u.phase.pending[0] == Delete(n, true)
    requires n in u.live && AskedForExtension(u.live[n].runner.status)
    ensures InVisit(u) && VisitedPod(u).name == n
    ensures CondemnedForAge(u) <==> !ReadTheEnd(u, u.live[n].runner.status)
    ensures ReadTheEnd(u, u.live[n].runner.status) ==>
              u.phase.ctx.now > Floor(d, clicks, FinishTime(u.live[n].runner.status))
  {
    assert Decided(u, n, d, clicks) by {
      assert u.phase.pending[0] in u.phase.pending;
    }
  }

  /** Which finished pods a pass deletes, at the moment the deletion lands, over every run with the
      setting D: a pod that asked for extension and finished at F is deleted only in a pass whose now is
      past F + D (or past its floor, with clicks on "extend" in play), unless the visit had read it
      before it published that end; such a pod was condemned for its age, by a runner list from before. */
  lemma LandedDeletion(w: World, steps: seq<Step>, n: string, d: Duration, clicks: bool)
    requires Init(w) && w.cfg.extendDuration == d && d != 0 && Possible(w, steps)
    requires forall s :: s in steps ==> Keeps(s, d, clicks)
    requires Enabled(After(w, steps), Do) && After(w, steps).phase.pending[0] == Delete(n, true)
    requires n in After(w, steps).live && AskedForExtension(After(w, steps).live[n].runner.status)
    ensures var u := After(w, steps);
            var st := u.live[n].runner.status;
            && InVisit(u) && VisitedPod(u).name == n
            && (CondemnedForAge(u) <==> !ReadTheEnd(u, st))
            && (u.phase.ctx.now <= Floor(d, clicks, FinishTime(st)) ==> CondemnedForAge(u))
  {
    hide Init, Possible, After, Sound, Deciding, Enabled;
    RunKeepsDeciding(w, steps, d, clicks);
    Landed(After(w, steps), n, d, clicks);
  }
}
