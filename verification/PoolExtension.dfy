/** What a click on "extend" does to a deadline, over every run in which the controller and the agent
    are the only writers and no configured extension is longer than the agent's limit. */
module PoolExtension {
  import opened Base
  import R = RunnerPod
  import opened ManagerPass
  import opened Extender
  import opened PoolWorld
  import opened PoolLifetime
  import opened PoolReports

  predicate Within(cfg: Config) {
    cfg.extendDuration <= LIMIT
  }

  predicate AtMost(deadline: Option<Time>, t: Time) {
    deadline.Some? ==> deadline.value <= t
  }

  ghost predicate CallCapped(k: Call, t: Time) {
    k.PutDeadline? ==> k.deadline <= t
  }

  // What this pod serves as its deadline since the click on it: what the click read, or what the
  // controller has set meanwhile; a restarted container has none.
  predicate SinceClick(click: Click, deadline: Option<Time>) {
    click.ExtendClick? && deadline.Some? ==>
      deadline == (if click.overtaken.Some? then click.overtaken else click.read)
  }

  predicate Asked(deadline: Time, click: Click, now: Time)
    requires click.ExtendClick?
  {
    deadline == Extended(click.read, click.at, click.at) && click.at <= now && AtMost(click.read, click.at + LIMIT)
  }

  /** No deadline, set or pending or in the agent's hand, lies beyond the limit as of now; and the
      agent's deadline is the one that its click asks for. */
  ghost predicate Capped(w: World) {
    && Within(w.cfg)
    && (w.phase.Visiting? ==>
          Within(w.phase.ctx.cfg) && forall k :: k in w.phase.pending ==> CallCapped(k, w.clock + LIMIT))
    && (forall n :: n in w.live ==> AtMost(w.live[n].runner.status.deletionTime, w.clock + LIMIT))
    && (w.agent.Some? ==>
          && w.agent.value.deadline <= w.clock + LIMIT && !w.hist.click.NoClick?
          && (w.hist.click.ExtendClick? ==> Asked(w.agent.value.deadline, w.hist.click, w.clock))
          && (w.agent.value.name in w.live ==>
                SinceClick(w.hist.click, w.live[w.agent.value.name].runner.status.deletionTime)))
  }

  // A step of the runs considered.
  predicate Configures(s: Step) {
    s.Configure? ==> Within(s.cfg)
  }

  // Whatever a listener does, it keeps the deadline or loses it in a restart.
  lemma ActKeepsDeadline(p: R.Pod, act: R.Step)
    requires !act.Put?
    ensures R.Next(p, act).status.deletionTime in {p.status.deletionTime, None}
  {
  }

  lemma AskedLater(deadline: Time, click: Click, now: Time, later: Time)
    requires click.ExtendClick? && Asked(deadline, click, now) && now <= later
    ensures Asked(deadline, click, later)
  {
  }

  // A step that sets no deadline.
  lemma NothingSet(w: World, v: World)
    requires Capped(w) && w.clock <= v.clock && Within(v.cfg)
    requires v.phase.Visiting? ==>
               Within(v.phase.ctx.cfg) && forall k :: k in v.phase.pending ==> w.phase.Visiting? && k in w.phase.pending
    requires forall n :: n in v.live ==>
               (n in w.live && v.live[n].runner.status.deletionTime in {w.live[n].runner.status.deletionTime, None})
               || (v.live[n].runner.status.deletionTime == None)
    requires v.agent == None || (v.agent == w.agent && v.hist.click == w.hist.click)
    ensures Capped(v)
  {
    hide Asked;
    if v.agent.Some? && w.hist.click.ExtendClick? {
      AskedLater(w.agent.value.deadline, w.hist.click, w.clock, v.clock);
    }
  }

  lemma ClickCapped(w: World, n: string)
    requires Capped(w) && Enabled(w, ClickExtend(n))
    ensures Capped(Apply(w, ClickExtend(n)))
  {
  }

  lemma SendCapped(w: World, applied: bool)
    requires Capped(w) && Enabled(w, SendClick(applied))
    ensures Capped(Apply(w, SendClick(applied)))
  {
  }

  lemma ReadCapped(w: World, r: Replies)
    requires Sound(w) && Capped(w) && Enabled(w, Read(r))
    ensures Capped(Apply(w, Read(r)))
  {
    hide Visit, PhaseSound, R.Valid, Asked, SinceClick;
    var v := Apply(w, Read(r));
    var po := w.phase.items[0];
    AfterReadKeepsCluster(w, r);
    VisitPuts(w.phase.ctx, w.phase.budget, po, r);
    forall k | k in v.phase.pending
      ensures CallCapped(k, v.clock + LIMIT)
    {
      if k.PutDeadline? {
        assert PodSound(po.name, w.live[po.name], w.clock);
        FinishPast(w.live[po.name].runner, w.clock);
      }
    }
  }

  lemma EffectOnDeadlines(w: World, k: Call)
    requires CallPossible(w, k)
    ensures var e := Effect(w, k);
            && e.clock == w.clock && e.agent == w.agent
            && forall n :: n in e.live ==>
                 && n in w.live
                 && e.live[n].runner.status.deletionTime ==
                      (if k.PutDeadline? && k.applied && k.name == n then Some(k.deadline)
                       else w.live[n].runner.status.deletionTime)
  {
  }

  lemma AskedStays(w: World, k: Call)
    requires w.agent.Some? && w.hist.click.ExtendClick? && Asked(w.agent.value.deadline, w.hist.click, w.clock)
    ensures Asked(w.agent.value.deadline, Overtaken(w, k), w.clock)
  {
  }

  lemma DoCapped(w: World)
    requires Capped(w) && Enabled(w, Do)
    ensures Capped(Apply(w, Do))
  {
    hide Asked;
    var k := w.phase.pending[0];
    var v := Apply(w, Do);
    EffectKeepsBooks(w, k);
    EffectOnDeadlines(w, k);
    assert k in w.phase.pending && CallCapped(k, w.clock + LIMIT);
    assert forall x :: x in v.phase.pending ==> x in w.phase.pending;
    assert v.hist.click == Overtaken(w, k);
    if v.agent.Some? && w.hist.click.ExtendClick? {
      AskedStays(w, k);
    }
  }

  lemma CappedSettings(w: World)
    requires Capped(w)
    ensures Within(w.cfg) && (w.phase.Visiting? ==> Within(w.phase.ctx.cfg))
  {
  }

  lemma DeleteCapped(w: World, n: string)
    requires Sound(w) && Capped(w) && Enabled(w, ClickDelete(n))
    ensures Capped(Apply(w, ClickDelete(n)))
  {
    hide LiveSound, PhaseSound;
  }

  lemma StepKeepsCapped(w: World, s: Step)
    requires Sound(w) && Capped(w) && Enabled(w, s) && Configures(s)
    ensures Capped(Apply(w, s))
  {
    hide Sound, Capped, Snapshot, R.Next, AfterRead, AfterDo, CountUnlabelled, Extended;
    match s {
      case ClickExtend(n) => ClickCapped(w, n);
      case ClickDelete(n) => DeleteCapped(w, n);
      case SendClick(applied) => SendCapped(w, applied);
      case Read(r) => ReadCapped(w, r);
      case Do => DoCapped(w);
      case InPod(n, act) =>
        ActKeepsDeadline(w.live[n].runner, act);
        CappedSettings(w);
        NothingSet(w, Apply(w, s));
      case _ =>
        CappedSettings(w);
        NothingSet(w, Apply(w, s));
    }
  }

  lemma {:induction false} RunKeepsCapped(w: World, steps: seq<Step>)
    requires Init(w) && Within(w.cfg) && Possible(w, steps)
    requires forall s :: s in steps ==> Configures(s)
    ensures Capped(After(w, steps))
  {
    hide Sound, Apply, Enabled;
    if steps != [] {
      var n := |steps| - 1;
      RunKeepsCapped(w, steps[..n]);
      InitIsSound(w);
      RunKeepsSound(w, steps[..n]);
      StepKeepsCapped(After(w, steps[..n]), steps[n]);
    }
  }

  /** The cap: with settings of at most six hours, every deadline that any pod ever serves is at most
      six hours away, buttons, restarts and lost calls included. */
  lemma DeadlinesAreCapped(w: World, steps: seq<Step>, n: string)
    requires Init(w) && Within(w.cfg) && Possible(w, steps) && n in After(w, steps).live
    requires forall s :: s in steps ==> Configures(s)
    ensures AtMost(After(w, steps).live[n].runner.status.deletionTime, After(w, steps).clock + LIMIT)
  {
    RunKeepsCapped(w, steps);
  }

  /** So a click that reads a deadline never asks for an earlier one, in any run. */
  lemma ClickAsksForNoEarlierDeadline(w: World, steps: seq<Step>, n: string)
    requires Init(w) && Within(w.cfg) && Possible(w, steps)
    requires forall s :: s in steps ==> Configures(s)
    requires Enabled(After(w, steps), ClickExtend(n))
    ensures var u := After(w, steps);
            AtMost(u.live[n].runner.status.deletionTime, Apply(u, ClickExtend(n)).agent.value.deadline)
  {
    hide Init, Sound, Possible, After;
    RunKeepsCapped(w, steps);
  }

  /** Whether a click moves a deadline that is set by the time the agent sends: it does not unless the
      controller has set one between the click's read and its send, and then it moves that one earlier
      exactly when the controller's deadline is later than what the click asks for. */
  lemma SentDeadlineIsEarlierExactlyWhen(w: World, steps: seq<Step>)
    requires Init(w) && Within(w.cfg) && Possible(w, steps)
    requires forall s :: s in steps ==> Configures(s)
    requires Enabled(After(w, steps), SendClick(true)) && After(w, steps).hist.click.ExtendClick?
    requires var u := After(w, steps); u.live[u.agent.value.name].runner.status.deletionTime.Some?
    ensures var u := After(w, steps);
            var n := u.agent.value.name;
            var click := u.hist.click;
            var v := Apply(u, SendClick(true));
            && v.live[n].runner.status.deletionTime == Some(Extended(click.read, click.at, click.at))
            && (v.live[n].runner.status.deletionTime.value < u.live[n].runner.status.deletionTime.value <==>
                  click.overtaken.Some? && Extended(click.read, click.at, click.at) < click.overtaken.value)
  {
    hide Init, Sound, Possible, After;
    RunKeepsCapped(w, steps);
  }

  // The first call sets a deadline on this pod.
  predicate Setting(k: Call, n: string) {
    k.PutDeadline? && k.name == n
  }

  predicate Served(deadline: Option<Time>, pushed: Option<Time>) {
    deadline.Some? ==> deadline == pushed
  }

  /** While the controller owes a pod a deadline, the only one that the pod can have is the agent's. */
  ghost predicate PushKnown(w: World) {
    w.phase.Visiting? ==>
      && (forall i, j :: 0 <= i < j < |w.phase.pending| ==> !w.phase.pending[i].PutDeadline? || !w.phase.pending[j].PutDeadline?)
      && forall i, n :: 0 <= i < |w.phase.pending| && Setting(w.phase.pending[i], n) && n in w.live ==>
           Served(w.live[n].runner.status.deletionTime, w.hist.pushed)
  }

  lemma VisitPutsOnce(c: Ctx, b: int, po: KubePod, r: Replies)
    ensures var calls := Visit(c, b, po, r).calls;
            forall i, j :: 0 <= i < j < |calls| ==> !calls[i].PutDeadline? || !calls[j].PutDeadline?
  {
    hide Adopt, MustDelete, InUse, Panics, NeedExtend, Notifies;
    AdoptReportsNothing(b, po, r);
  }

  lemma ReadPushKnown(w: World, r: Replies)
    requires Enabled(w, Read(r))
    ensures PushKnown(Apply(w, Read(r)))
  {
    hide Visit;
    var po := w.phase.items[0];
    AfterReadKeepsCluster(w, r);
    VisitPuts(w.phase.ctx, w.phase.budget, po, r);
    VisitPutsOnce(w.phase.ctx, w.phase.budget, po, r);
  }

  lemma DoPushKnown(w: World)
    requires PushKnown(w) && Enabled(w, Do)
    ensures PushKnown(Apply(w, Do))
  {
    hide Effect;
    var k := w.phase.pending[0];
    var v := Apply(w, Do);
    EffectKeepsBooks(w, k);
    EffectOnDeadlines(w, k);
    assert forall i :: 0 <= i < |v.phase.pending| ==> v.phase.pending[i] == w.phase.pending[i + 1];
  }

  lemma SendPushKnown(w: World, applied: bool)
    requires Sound(w) && PushKnown(w) && Enabled(w, SendClick(applied))
    ensures PushKnown(Apply(w, SendClick(applied)))
  {
    hide LiveSound, ListSound;
    if w.phase.Visiting? {
      forall i | 0 <= i < |w.phase.pending|
        ensures CallName(w.phase.pending[i]) == CallName(w.phase.pending[0])
      {
        assert PendingCallSound(w.phase.pending[i], CallName(w.phase.pending[0]), w.phase.items, w.used);
      }
    }
  }

  // A step that leaves pending calls alone, or has none, and sets no deadline.
  lemma NothingPushed(w: World, v: World)
    requires PushKnown(w)
    requires v.phase == w.phase || !v.phase.Visiting? || v.phase.pending == []
    requires v.hist.pushed == w.hist.pushed
    requires forall n :: n in v.live ==>
               (n in w.live && v.live[n].runner.status.deletionTime in {w.live[n].runner.status.deletionTime, None})
               || (v.live[n].runner.status.deletionTime == None)
    ensures PushKnown(v)
  {
  }

  lemma StepKeepsPushKnown(w: World, s: Step)
    requires Sound(w) && PushKnown(w) && Enabled(w, s)
    ensures PushKnown(Apply(w, s))
  {
    hide Sound, PushKnown, Snapshot, R.Next, AfterRead, AfterDo, CountUnlabelled, Extended;
    match s {
      case SendClick(applied) => SendPushKnown(w, applied);
      case Read(r) => ReadPushKnown(w, r);
      case Do => DoPushKnown(w);
      case InPod(n, act) =>
        ActKeepsDeadline(w.live[n].runner, act);
        NothingPushed(w, Apply(w, s));
      case _ => NothingPushed(w, Apply(w, s));
    }
  }

  lemma {:induction false} RunKeepsPushKnown(w: World, steps: seq<Step>)
    requires Init(w) && Possible(w, steps)
    ensures PushKnown(After(w, steps))
  {
    hide Sound, Apply, Enabled;
    if steps != [] {
      var n := |steps| - 1;
      RunKeepsPushKnown(w, steps[..n]);
      InitIsSound(w);
      RunKeepsSound(w, steps[..n]);
      StepKeepsPushKnown(After(w, steps[..n]), steps[n]);
    }
  }

  /** The other way round: the controller's own deadline takes the place of an earlier or later one only
      if the agent has set that one since the controller read the pod, and it moves it earlier exactly
      when the agent's is the later one. No setting is assumed. */
  lemma ControllerDeadlineIsEarlierExactlyWhen(w: World, steps: seq<Step>, n: string, t: Time)
    requires Init(w) && Possible(w, steps) && Enabled(After(w, steps), Do)
    requires After(w, steps).phase.pending[0] == PutDeadline(n, t, true)
    requires After(w, steps).live[n].runner.status.deletionTime.Some?
    ensures var u := After(w, steps);
            var v := Apply(u, Do);
            && v.live[n].runner.status.deletionTime == Some(t)
            && (v.live[n].runner.status.deletionTime.value < u.live[n].runner.status.deletionTime.value <==>
                  u.hist.pushed.Some? && t < u.hist.pushed.value)
  {
    hide Init, Sound, Possible, After;
    RunKeepsPushKnown(w, steps);
    var u := After(w, steps);
    EffectOnDeadlines(u, u.phase.pending[0]);
    assert Setting(u.phase.pending[0], n);
  }
}
