/** How often the end of a job is reported, over every run. */
module PoolReports {
  import opened Base
  import R = RunnerPod
  import opened ManagerPass
  import opened PassProperties
  import opened VisitProperties
  import opened PoolWorld

  // A report of this pod is the next call of the manager.
  predicate ReportPending(phase: Phase, n: string) {
    phase.Visiting? && phase.pending != [] && phase.pending[0].Post? && phase.pending[0].name == n
  }

  // ... and it will reach Slack.
  predicate DeliveryPending(phase: Phase, n: string) {
    ReportPending(phase, n) && phase.pending[0].delivered
  }

  function Total(w: World, n: string): nat {
    w.hist.reports[n] + (if ReportPending(w.phase, n) then 1 else 0)
  }

  ghost predicate ToVisit(phase: Phase, n: string) {
    phase.Visiting? && Listing(phase.items, n)
  }

  function Late(w: World, n: string): nat {
    if n in w.hist.late then 1 else 0
  }

  // The window that covers this finish time is the one of the present pass.
  predicate Covering(phase: Phase, finish: Time) {
    phase.Visiting? && phase.ctx.last < finish
  }

  /** The reports of one pod, made and pending, against what the pod serves and where the pass is. */
  ghost predicate Told(w: World, n: string) {
    if n !in w.used then Total(w, n) == 0 && n !in w.hist.late
    else if n !in w.live then Total(w, n) <= 1 + Late(w, n)
    else
      var p := w.live[n].runner;
      if p.status.state == R.Debugging then
        var finish := FinishTime(p.status);
        if finish > w.lastCheck then Total(w, n) <= Late(w, n) && (n in w.hist.late ==> !ToVisit(w.phase, n))
        else if Covering(w.phase, finish) && ToVisit(w.phase, n) then Total(w, n) <= Late(w, n)
        else Total(w, n) <= 1 + Late(w, n)
      else if R.MayFinish(p) then Total(w, n) == 0 && n !in w.hist.late
      else Total(w, n) <= 1 + Late(w, n)
  }

  // Only the first of the calls of a visit is a report.
  ghost predicate ReportsFirst(phase: Phase) {
    phase.Visiting? ==> forall i :: 0 < i < |phase.pending| ==> !phase.pending[i].Post?
  }

  ghost predicate AllTold(w: World) {
    ReportsFirst(w.phase) && forall n :: Told(w, n)
  }

  lemma AtMostTwice(w: World, n: string)
    requires Told(w, n)
    ensures Total(w, n) <= 1 + Late(w, n) <= 2
  {
  }

  lemma AdoptReportsNothing(b: int, po: KubePod, r: Replies)
    ensures forall k :: k in Adopt(b, po, r).calls ==> !k.Post? && !k.PutDeadline? && !k.Delete?
  {
  }

  /** A visit reports its pod exactly when the pod is read as finished after the previous pass began
      while notification is on; the report is then its first call, and its only one. */
  lemma VisitReports(c: Ctx, b: int, po: KubePod, r: Replies)
    ensures var calls := Visit(c, b, po, r).calls;
            && (forall i :: 0 < i < |calls| ==> !calls[i].Post?)
            && (calls != [] && calls[0].Post? <==>
                  po.running && r.status.Some? && !Panics(c, r.status.value) && Notifies(c, r.status.value))
            && (calls != [] && calls[0].Post? ==> calls[0].name == po.name && calls[0].delivered == r.posted)
  {
    hide Adopt, MustDelete, InUse, Panics, NeedExtend;
    AdoptReportsNothing(b, po, r);
  }

  // Nothing about the end of the job changed, or the program was restarted.
  predicate SameEnd(p: R.Pod, q: R.Pod) {
    || (q.status.state == p.status.state && FinishTime(q.status) == FinishTime(p.status) && R.MayFinish(q) == R.MayFinish(p))
    || (q.status.state != R.Debugging && p.status.state != R.Debugging && R.MayFinish(p))
    || (q.status.state != R.Debugging && !R.MayFinish(q))
  }

  // A step that leaves the reports, the pass and this pod's program alone.
  lemma Unaffected(w: World, v: World, n: string)
    requires Told(w, n)
    requires v.lastCheck == w.lastCheck && (n in v.hist.late <==> n in w.hist.late) && Total(v, n) == Total(w, n)
    requires n in v.used <==> n in w.used
    requires ToVisit(v.phase, n) ==> ToVisit(w.phase, n)
    requires forall t :: Covering(v.phase, t) && ToVisit(v.phase, n) ==> Covering(w.phase, t)
    requires n in v.live ==> n in w.live && SameEnd(w.live[n].runner, v.live[n].runner)
    requires n in w.live && n !in v.live ==> n in w.used
    ensures Told(v, n)
  {
    hide ToVisit;
  }

  lemma PutKeepsEnd(p: R.Pod, t: Time)
    ensures SameEnd(p, R.Next(p, R.Put(t)))
  {
  }

  // Whatever a listener does, it ends a job at most once, and not before now.
  lemma ActOnEnd(p: R.Pod, act: R.Step)
    requires R.Valid(p) && !act.Put?
    ensures var q := R.Next(p, act); SameEnd(p, q) || (R.MayFinish(p) && p.status.state != R.Debugging && q.status.state == R.Debugging)
  {
  }

  lemma InPodTold(w: World, n: string, act: R.Step, m: string)
    requires Sound(w) && Enabled(w, InPod(n, act)) && Told(w, m)
    ensures Told(Apply(w, InPod(n, act)), m)
  {
    hide PhaseSound, ToVisit, R.Next, R.Valid;
    var v := Apply(w, InPod(n, act));
    assert PodSound(n, w.live[n], w.clock);
    ActOnEnd(w.live[n].runner, act);
    if m != n || SameEnd(w.live[n].runner, v.live[n].runner) {
      Unaffected(w, v, m);
    }
  }

  lemma FinishPast(p: R.Pod, t: Time)
    requires FinishedBy(p, t) && R.Valid(p) && p.status.state == R.Debugging
    ensures FinishTime(p.status) <= t
  {
  }

  lemma BeginTold(w: World, m: string)
    requires Sound(w) && Enabled(w, Begin) && Told(w, m)
    ensures Told(Apply(w, Begin), m)
  {
    hide PhaseSound, ToVisit, R.Valid, CountUnlabelled, Budget;
    if m in w.live {
      assert PodSound(m, w.live[m], w.clock);
      if w.live[m].runner.status.state == R.Debugging {
        FinishPast(w.live[m].runner, w.clock);
      }
    }
  }

  lemma RestartTold(w: World, m: string)
    requires Sound(w) && Told(w, m)
    ensures Told(Apply(w, RestartManager), m)
  {
    hide PhaseSound, ToVisit, R.Valid;
    if m in w.live {
      assert PodSound(m, w.live[m], w.clock);
      if w.live[m].runner.status.state == R.Debugging {
        FinishPast(w.live[m].runner, w.clock);
      }
    }
  }

  lemma NextToVisit(items: seq<KubePod>, m: string)
    requires items != [] && Distinct(items)
    ensures Listing(items[1..], m) <==> Listing(items, m) && m != items[0].name
  {
    if Listing(items[1..], m) {
      var i :| 0 <= i < |items| - 1 && items[1..][i].name == m;
      assert items[i + 1].name == m;
    }
    if Listing(items, m) && m != items[0].name {
      var i :| 0 <= i < |items| && items[i].name == m;
      assert items[1..][i - 1].name == m;
    }
  }

  lemma ReadTold(w: World, r: Replies, m: string)
    requires Sound(w) && Enabled(w, Read(r)) && Told(w, m)
    ensures Told(Apply(w, Read(r)), m)
  {
    hide R.Valid, LiveSound, Visit, PendingSound;
    var v := Apply(w, Read(r));
    var c := w.phase.ctx;
    var po := w.phase.items[0];
    VisitReports(c, w.phase.budget, po, r);
    NextToVisit(w.phase.items, m);
    if m == po.name {
      assert w.phase.items[0].name == m;
      assert ToVisit(w.phase, m) && !ToVisit(v.phase, m);
    } else {
      Unaffected(w, v, m);
    }
  }

  lemma SameIsSame(p: R.Pod)
    ensures SameEnd(p, p)
  {
  }

  lemma EffectOnPods(w: World, k: Call, m: string)
    requires CallPossible(w, k)
    ensures var e := Effect(w, k);
            && e.used == w.used && e.lastCheck == w.lastCheck && e.clock == w.clock && e.phase == w.phase
            && e.hist == w.hist.(reports := e.hist.reports, delivered := e.hist.delivered)
            && e.hist.delivered ==
                 (if k.Post? && k.delivered then w.hist.delivered + multiset{k.name} else w.hist.delivered)
            && e.hist.reports == (if k.Post? then w.hist.reports + multiset{k.name} else w.hist.reports)
            && (m in e.live ==> m in w.live && SameEnd(w.live[m].runner, e.live[m].runner))
  {
    hide R.Next, SameEnd;
    if k.PutDeadline? && k.applied {
      PutKeepsEnd(w.live[k.name].runner, k.deadline);
    }
    if m in w.live {
      SameIsSame(w.live[m].runner);
    }
  }

  lemma LiveAreUsed(w: World)
    requires Sound(w)
    ensures forall n :: n in w.live ==> n in w.used
  {
    hide PodSound, PhaseSound;
  }

  lemma DoTold(w: World, m: string)
    requires Sound(w) && ReportsFirst(w.phase) && Enabled(w, Do) && Told(w, m)
    ensures Told(Apply(w, Do), m)
  {
    hide R.Valid, LiveSound, ListSound, PendingSound, Effect, SameEnd;
    var v := Apply(w, Do);
    var k := w.phase.pending[0];
    EffectOnPods(w, k, m);
    assert Total(v, m) == Total(w, m);
    LiveAreUsed(w);
    Unaffected(w, v, m);
  }

  lemma CreateTold(w: World, obj: KubePod, hasSetup: bool, m: string)
    requires Sound(w) && Enabled(w, Create(obj, hasSetup)) && Told(w, m)
    ensures Told(Apply(w, Create(obj, hasSetup)), m)
  {
    hide Sound, ToVisit;
    LiveAreUsed(w);
  }

  lemma StepKeepsTold(w: World, s: Step, m: string)
    requires Sound(w) && ReportsFirst(w.phase) && Enabled(w, s) && Told(w, m)
    ensures Told(Apply(w, s), m)
  {
    hide Sound, R.Next, Snapshot, AfterRead, AfterDo, AfterBegin, SameEnd, Told;
    LiveAreUsed(w);
    match s {
      case Create(obj, hasSetup) => CreateTold(w, obj, hasSetup, m);
      case InPod(n, act) => InPodTold(w, n, act, m);
      case Begin => BeginTold(w, m);
      case Read(r) => ReadTold(w, r, m);
      case Do => DoTold(w, m);
      case RestartManager => RestartTold(w, m);
      case SendClick(applied) =>
        if applied {
          PutKeepsEnd(w.live[w.agent.value.name].runner, w.agent.value.deadline);
        }
        if m in w.live {
          SameIsSame(w.live[m].runner);
        }
        Unaffected(w, Apply(w, s), m);
      case _ =>
        if m in w.live {
          SameIsSame(w.live[m].runner);
        }
        Unaffected(w, Apply(w, s), m);
    }
  }

  lemma StepKeepsReportsFirst(w: World, s: Step)
    requires ReportsFirst(w.phase) && Enabled(w, s)
    ensures ReportsFirst(Apply(w, s).phase)
  {
    hide R.Next, Snapshot, Visit, Effect;
    match s {
      case Read(r) => VisitReports(w.phase.ctx, w.phase.budget, w.phase.items[0], r);
      case _ =>
    }
  }

  lemma InitTold(w: World)
    requires Init(w)
    ensures AllTold(w)
  {
  }

  lemma {:induction false} RunKeepsTold(w: World, steps: seq<Step>)
    requires Init(w) && Possible(w, steps)
    ensures AllTold(After(w, steps))
  {
    hide Sound, Apply, Enabled, Told, ReportsFirst;
    if steps == [] {
      InitTold(w);
    } else {
      var n := |steps| - 1;
      RunKeepsTold(w, steps[..n]);
      InitIsSound(w);
      RunKeepsSound(w, steps[..n]);
      StepKeepsReportsFirst(After(w, steps[..n]), steps[n]);
      forall m
        ensures Told(After(w, steps), m)
      {
        StepKeepsTold(After(w, steps[..n]), steps[n], m);
      }
    }
  }

  /** A pod counts as late exactly when a visit reads it as finished after the pass of that visit began. */
  lemma LateExactly(w: World, s: Step, n: string)
    requires Enabled(w, s)
    ensures n in Apply(w, s).hist.late <==>
              || n in w.hist.late
              || (s.Read? && w.phase.items[0].name == n && w.phase.items[0].running
                  && s.r.status.Some? && s.r.status.value.state == R.Debugging
                  && FinishTime(s.r.status.value) > w.phase.ctx.now)
  {
    hide R.Next, Snapshot, Visit, Effect, CountUnlabelled;
    if s.Do? {
      EffectKeepsBooks(w, w.phase.pending[0]);
    }
  }

  lemma DeliveriesAreReports(w: World)
    requires Sound(w)
    ensures w.hist.delivered <= w.hist.reports
  {
    hide LiveSound, PhaseSound;
  }

  /** Over every run a pod is reported at most twice, and at most once unless a pass read it as
      finished after that pass had begun; crashes of the manager and of pods included. */
  lemma ReportedAtMostOnce(w: World, steps: seq<Step>, n: string)
    requires Init(w) && Possible(w, steps)
    ensures var v := After(w, steps);
            v.hist.delivered[n] <= v.hist.reports[n] <= (if n in v.hist.late then 2 else 1)
  {
    hide Sound, Apply, Enabled, Possible, After;
    RunKeepsTold(w, steps);
    AtMostTwice(After(w, steps), n);
    InitIsSound(w);
    RunKeepsSound(w, steps);
    DeliveriesAreReports(After(w, steps));
  }

  /** The windows of the passes of one manager process tile the time from its start to its latest
      pass: each begins where the previous one ended. Passes whose list calls fail lose nothing. */
  ghost predicate Tiled(w: World) {
    var ws := w.hist.windows;
    && (forall i :: 0 <= i < |ws| ==> ws[i].after <= ws[i].upTo)
    && (forall i :: 0 < i < |ws| ==> ws[i].after == ws[i - 1].upTo)
    && (if ws == [] then w.lastCheck == w.hist.start
        else ws[0].after == w.hist.start && ws[|ws| - 1].upTo == w.lastCheck)
    && (w.phase.Visiting? ==> ws != [] && ws[|ws| - 1] == Window(w.phase.ctx.last, w.phase.ctx.now))
  }

  // A step that leaves the passes alone, or ends one.
  lemma SameWindows(w: World, v: World)
    requires Tiled(w)
    requires v.hist.windows == w.hist.windows && v.hist.start == w.hist.start && v.lastCheck == w.lastCheck
    requires v.phase.Visiting? ==> w.phase.Visiting? && v.phase.ctx == w.phase.ctx
    ensures Tiled(v)
  {
  }

  lemma BeginTiled(w: World)
    requires Sound(w) && Tiled(w) && Enabled(w, Begin)
    ensures Tiled(AfterBegin(w))
  {
    hide LiveSound, PhaseSound, CountUnlabelled, Budget;
  }

  lemma RestartTiled(w: World)
    ensures Tiled(Apply(w, RestartManager))
  {
  }

  lemma StepKeepsTiled(w: World, s: Step)
    requires Sound(w) && Tiled(w) && Enabled(w, s)
    ensures Tiled(Apply(w, s))
  {
    hide Sound, Tiled, R.Next, Snapshot, Visit, Effect, CountUnlabelled, AfterBegin;
    match s {
      case Begin => BeginTiled(w);
      case RestartManager => RestartTiled(w);
      case Do =>
        EffectKeepsBooks(w, w.phase.pending[0]);
        EffectOnPods(w, w.phase.pending[0], "");
        SameWindows(w, Apply(w, s));
      case _ => SameWindows(w, Apply(w, s));
    }
  }

  lemma InitTiled(w: World)
    requires Init(w)
    ensures Tiled(w)
  {
  }

  lemma {:induction false} RunKeepsTiled(w: World, steps: seq<Step>)
    requires Init(w) && Possible(w, steps)
    ensures Tiled(After(w, steps))
  {
    hide Sound, Apply, Enabled, Tiled;
    if steps == [] {
      InitTiled(w);
    } else {
      var n := |steps| - 1;
      RunKeepsTiled(w, steps[..n]);
      InitIsSound(w);
      RunKeepsSound(w, steps[..n]);
      StepKeepsTiled(After(w, steps[..n]), steps[n]);
    }
  }

  predicate Covers(x: Window, t: Time) {
    x.after < t <= x.upTo
  }

  lemma {:induction false} WindowsOrdered(ws: seq<Window>, i: nat, j: nat)
    requires forall k :: 0 <= k < |ws| ==> ws[k].after <= ws[k].upTo
    requires forall k :: 0 < k < |ws| ==> ws[k].after == ws[k - 1].upTo
    requires i < j < |ws|
    ensures ws[i].upTo <= ws[j].after
  {
    if i + 1 < j {
      WindowsOrdered(ws, i, j - 1);
    }
  }

  lemma {:induction false} SomeWindow(ws: seq<Window>, t: Time) returns (i: nat)
    requires ws != [] && ws[0].after < t <= ws[|ws| - 1].upTo
    requires forall k :: 0 < k < |ws| ==> ws[k].after == ws[k - 1].upTo
    ensures i < |ws| && Covers(ws[i], t)
  {
    var n := |ws| - 1;
    if ws[n].after < t {
      i := n;
    } else {
      i := SomeWindow(ws[..n], t);
    }
  }

  /** A pod that finished after the manager process began and before its latest pass did lies in the
      window of exactly one pass. */
  lemma ExactlyOneWindow(w: World, steps: seq<Step>, t: Time)
    requires Init(w) && Possible(w, steps)
    requires After(w, steps).hist.start < t <= After(w, steps).lastCheck
    ensures var ws := After(w, steps).hist.windows;
            exists i :: 0 <= i < |ws| && Covers(ws[i], t) && forall j :: 0 <= j < |ws| && j != i ==> !Covers(ws[j], t)
  {
    hide Sound, Apply, Enabled, Possible, After;
    RunKeepsTiled(w, steps);
    var ws := After(w, steps).hist.windows;
    var i := SomeWindow(ws, t);
    forall j | 0 <= j < |ws| && j != i
      ensures !Covers(ws[j], t)
    {
      if j < i {
        WindowsOrdered(ws, j, i);
      } else {
        WindowsOrdered(ws, i, j);
      }
    }
  }

  predicate EndsAt(p: R.Pod, finish: Time) {
    if p.pc.Publish? then p.pc.outcome.finishedAt == finish
    else if p.status.state == R.Debugging then FinishTime(p.status) == finish
    else !R.MayFinish(p)
  }

  /** The covering visit of this finish time is over for this pod. The pod may not even have published
      its end: it reads the clock before it publishes. */
  ghost predicate Settled(w: World, n: string, finish: Time) {
    && n in w.used && finish <= w.lastCheck
    && !(Covering(w.phase, finish) && ToVisit(w.phase, n))
    && (n in w.live ==> EndsAt(w.live[n].runner, finish))
  }

  // ... and no report of it is under way.
  ghost predicate Missed(w: World, n: string, finish: Time) {
    Settled(w, n, finish) && !ReportPending(w.phase, n)
  }

  lemma ActKeepsEnd(p: R.Pod, act: R.Step, finish: Time)
    requires R.Valid(p) && EndsAt(p, finish)
    ensures EndsAt(R.Next(p, act), finish)
  {
  }

  lemma PutKeepsEndsAt(p: R.Pod, t: Time, finish: Time)
    requires EndsAt(p, finish)
    ensures EndsAt(R.Next(p, R.Put(t)), finish)
  {
  }

  lemma ReadSettled(w: World, r: Replies, n: string, finish: Time)
    requires Sound(w) && Enabled(w, Read(r)) && Settled(w, n, finish)
    ensures Missed(Apply(w, Read(r)), n, finish)
  {
    hide Visit, PendingSound;
    var po := w.phase.items[0];
    VisitReports(w.phase.ctx, w.phase.budget, po, r);
    NextToVisit(w.phase.items, n);
    if n == po.name {
      assert n in w.live ==> PodSound(n, w.live[n], w.clock);
      assert w.phase.items[0].name == n;
      assert ToVisit(w.phase, n);
    }
  }

  lemma EffectKeepsEndsAt(w: World, k: Call, n: string, finish: Time)
    requires CallPossible(w, k) && (n in w.live ==> EndsAt(w.live[n].runner, finish))
    ensures n in Effect(w, k).live ==> EndsAt(Effect(w, k).live[n].runner, finish)
  {
    hide R.Next, EndsAt;
    if k.PutDeadline? && k.applied && k.name == n {
      PutKeepsEndsAt(w.live[n].runner, k.deadline, finish);
    }
  }

  lemma SameVisits(p: Phase, q: Phase, n: string)
    requires p.Visiting? && q.Visiting? && p.items == q.items
    ensures ToVisit(p, n) <==> ToVisit(q, n)
  {
  }

  lemma DoSettled(w: World, n: string, finish: Time)
    requires ReportsFirst(w.phase) && Enabled(w, Do) && Settled(w, n, finish)
    ensures var v := Apply(w, Do);
            && Missed(v, n, finish)
            && v.hist.reports[n] == w.hist.reports[n] + (if ReportPending(w.phase, n) then 1 else 0)
            && v.hist.delivered[n] == w.hist.delivered[n] + (if DeliveryPending(w.phase, n) then 1 else 0)
  {
    hide EndsAt, ToVisit, Effect, SameEnd;
    var k := w.phase.pending[0];
    EffectOnPods(w, k, n);
    EffectKeepsEndsAt(w, k, n, finish);
    assert ToVisit(Apply(w, Do).phase, n) <==> ToVisit(w.phase, n) by {
      SameVisits(w.phase, Apply(w, Do).phase, n);
    }
  }

  // A step that leaves the passes alone, or ends one, and does not change the pod's end.
  lemma SettledStays(w: World, v: World, n: string, finish: Time)
    requires Settled(w, n, finish) && v.lastCheck >= w.lastCheck && v.used >= w.used
    requires v.phase == w.phase || !v.phase.Visiting?
    requires n in v.live ==> EndsAt(v.live[n].runner, finish)
    ensures Settled(v, n, finish)
  {
    hide EndsAt, ToVisit;
  }

  lemma BeginSettled(w: World, n: string, finish: Time)
    requires w.lastCheck <= w.clock && Enabled(w, Begin) && Settled(w, n, finish)
    ensures Settled(AfterBegin(w), n, finish) && !ReportPending(AfterBegin(w).phase, n)
  {
    hide EndsAt, ToVisit, CountUnlabelled, Budget;
  }

  lemma InPodSettled(w: World, m: string, act: R.Step, n: string, finish: Time)
    requires Sound(w) && Enabled(w, InPod(m, act)) && Settled(w, n, finish)
    ensures Settled(Apply(w, InPod(m, act)), n, finish)
  {
    hide PhaseSound, R.Valid, R.Next, EndsAt, ToVisit;
    assert PodSound(m, w.live[m], w.clock);
    if m == n {
      ActKeepsEnd(w.live[m].runner, act, finish);
    }
    SettledStays(w, Apply(w, InPod(m, act)), n, finish);
  }

  lemma SendSettled(w: World, applied: bool, n: string, finish: Time)
    requires Enabled(w, SendClick(applied)) && Settled(w, n, finish)
    ensures Settled(Apply(w, SendClick(applied)), n, finish)
  {
    hide R.Next, EndsAt, ToVisit;
    if applied && w.agent.value.name == n {
      PutKeepsEndsAt(w.live[n].runner, w.agent.value.deadline, finish);
    }
    SettledStays(w, Apply(w, SendClick(applied)), n, finish);
  }

  lemma SettledParts(w: World, n: string, finish: Time)
    requires Settled(w, n, finish)
    ensures n in w.used && (n in w.live ==> EndsAt(w.live[n].runner, finish))
  {
  }

  lemma AfterBeginKeepsReports(w: World)
    requires w.phase.Listed?
    ensures AfterBegin(w).hist.reports == w.hist.reports && AfterBegin(w).hist.delivered == w.hist.delivered
  {
  }

  /** Once its covering visit is over, a pod's end is reported exactly when a pending report is made, and
      no further report becomes pending; and likewise for the reports that reach Slack. */
  lemma StepKeepsSettled(w: World, s: Step, n: string, finish: Time)
    requires Sound(w) && ReportsFirst(w.phase) && Enabled(w, s) && Settled(w, n, finish)
    ensures var v := Apply(w, s);
            && Settled(v, n, finish)
            && v.hist.reports[n] == w.hist.reports[n] + (if s.Do? && ReportPending(w.phase, n) then 1 else 0)
            && v.hist.delivered[n] == w.hist.delivered[n] + (if s.Do? && DeliveryPending(w.phase, n) then 1 else 0)
            && (ReportPending(v.phase, n) <==> ReportPending(w.phase, n) && !s.Do? && !s.RestartManager?)
            && (DeliveryPending(v.phase, n) <==> DeliveryPending(w.phase, n) && !s.Do? && !s.RestartManager?)
  {
    hide Sound, Settled, R.Next, Snapshot, AfterRead, AfterDo, AfterBegin;
    SettledParts(w, n, finish);
    match s {
      case InPod(m, act) => InPodSettled(w, m, act, n, finish);
      case SendClick(applied) => SendSettled(w, applied, n, finish);
      case Begin =>
        SoundParts(w);
        BeginSettled(w, n, finish);
        AfterBeginKeepsReports(w);
      case Read(r) =>
        ReadSettled(w, r, n, finish);
        AfterReadKeepsReports(w, r);
      case Do => DoSettled(w, n, finish);
      case _ =>
        SoundParts(w);
        SettledStays(w, Apply(w, s), n, finish);
    }
  }

  lemma {:induction false} RunKeepsReportsFirst(w: World, steps: seq<Step>)
    requires ReportsFirst(w.phase) && Possible(w, steps)
    ensures ReportsFirst(After(w, steps).phase)
  {
    hide Apply, Enabled, ReportsFirst;
    if steps != [] {
      var n := |steps| - 1;
      RunKeepsReportsFirst(w, steps[..n]);
      StepKeepsReportsFirst(After(w, steps[..n]), steps[n]);
    }
  }

  /** Once the covering visit is over, a finished pod gets no further report in any continuation. */
  lemma {:induction false} MissedForever(w: World, before: seq<Step>, steps: seq<Step>, n: string, finish: Time)
    requires Init(w) && Possible(w, before) && Missed(After(w, before), n, finish)
    requires Possible(After(w, before), steps)
    ensures var v := After(After(w, before), steps);
            && Missed(v, n, finish) && v.hist.reports[n] == After(w, before).hist.reports[n]
            && v.hist.delivered[n] == After(w, before).hist.delivered[n]
  {
    hide Sound, Apply, Enabled, Settled, ReportsFirst, Told;
    if steps != [] {
      var k := |steps| - 1;
      MissedForever(w, before, steps[..k], n, finish);
      var u := After(After(w, before), steps[..k]);
      InitIsSound(w);
      RunKeepsSound(w, before);
      RunKeepsSound(After(w, before), steps[..k]);
      RunKeepsTold(w, before);
      RunKeepsReportsFirst(After(w, before), steps[..k]);
      StepKeepsSettled(u, steps[k], n, finish);
    }
  }

  function Reporting(n: string): Phase -> bool {
    phase => ReportPending(phase, n)
  }

  // What a settled end comes to: its pending report is made unless the manager dies first.
  lemma {:induction false} SettledOutcome(v: World, steps: seq<Step>, n: string, finish: Time)
    requires Sound(v) && ReportsFirst(v.phase) && Settled(v, n, finish) && Possible(v, steps)
    ensures var x := After(v, steps);
            var made := ReportPending(v.phase, n) && Carries(v, steps, Reporting(n));
            && Settled(x, n, finish)
            && (ReportPending(x.phase, n) ==> made)
            && (DeliveryPending(x.phase, n) <==> ReportPending(x.phase, n) && DeliveryPending(v.phase, n))
            && x.hist.reports[n] == v.hist.reports[n] + (if made && !ReportPending(x.phase, n) then 1 else 0)
            && x.hist.delivered[n] ==
                 v.hist.delivered[n] + (if made && DeliveryPending(v.phase, n) && !ReportPending(x.phase, n) then 1 else 0)
  {
    hide Sound, Apply, Enabled, Settled, ReportPending, ReportsFirst;
    if steps != [] {
      var k := |steps| - 1;
      SettledOutcome(v, steps[..k], n, finish);
      RunKeepsSound(v, steps[..k]);
      RunKeepsReportsFirst(v, steps[..k]);
      StepKeepsSettled(After(v, steps[..k]), steps[k], n, finish);
    }
  }

  // The job in this pod ended at this time, published or about to be.
  predicate Ended(p: R.Pod, finish: Time) {
    if p.pc.Publish? then p.pc.outcome.finishedAt == finish
    else p.status.state == R.Debugging && FinishTime(p.status) == finish
  }

  // The visit gets to know of the end while notification is on.
  predicate Learns(c: Ctx, po: KubePod, r: Replies) {
    po.running && r.status.Some? && r.status.value.state == R.Debugging && c.cfg.needNotification
  }

  // No pass has reported this end yet, unless one read it after it began.
  lemma NothingTold(u: World, r: Replies, finish: Time)
    requires Sound(u) && AllTold(u) && Enabled(u, Read(r))
    requires var n := u.phase.items[0].name;
             n in u.live && Ended(u.live[n].runner, finish) && u.phase.ctx.last < finish <= u.phase.ctx.now
    ensures u.phase.items[0].name !in u.hist.late ==> u.hist.reports[u.phase.items[0].name] == 0
  {
    hide PendingSound, ReportsFirst, ListSound;
    var n := u.phase.items[0].name;
    assert PodSound(n, u.live[n], u.clock);
    assert Told(u, n);
    assert Listing(u.phase.items, n) by {
      assert u.phase.items[0].name == n;
    }
  }

  lemma CoveringReadSettles(u: World, r: Replies, finish: Time)
    requires Sound(u) && AllTold(u) && Enabled(u, Read(r))
    requires var n := u.phase.items[0].name;
             n in u.live && Ended(u.live[n].runner, finish) && u.phase.ctx.last < finish <= u.phase.ctx.now
    ensures var n := u.phase.items[0].name;
            var v := Apply(u, Read(r));
            && Settled(v, n, finish) && v.hist.reports == u.hist.reports && v.hist.delivered == u.hist.delivered
            && (ReportPending(v.phase, n) <==> Learns(u.phase.ctx, u.phase.items[0], r))
            && (DeliveryPending(v.phase, n) <==> Learns(u.phase.ctx, u.phase.items[0], r) && r.posted)
            && (n !in u.hist.late ==> u.hist.reports[n] == 0)
  {
    hide Visit, PendingSound, Told;
    var n := u.phase.items[0].name;
    assert PodSound(n, u.live[n], u.clock);
    NothingTold(u, r, finish);
    VisitReports(u.phase.ctx, u.phase.budget, u.phase.items[0], r);
    NextToVisit(u.phase.items, n);
    AfterReadKeepsCluster(u, r);
    AfterReadKeepsReports(u, r);
  }

  /** When exactly the end of a job is reported. Let it lie in the window of a pass that visits the pod.
      In every continuation the pod's reports have grown by one iff the visit learned of the end, with
      notification on, and the manager did not die before the report, which then is the visit's first
      call, was made; and those that reached Slack have grown by one iff, besides, that call succeeded.
      They stay as they are otherwise, for good: a failed report is not repeated. And both start from
      none, unless an earlier pass had read the end after that pass began. */
  lemma CoveringVisitDecides(w: World, before: seq<Step>, r: Replies, steps: seq<Step>, n: string, finish: Time)
    requires Init(w) && Possible(w, before) && Enabled(After(w, before), Read(r))
    requires var u := After(w, before);
             && u.phase.items[0].name == n && n in u.live && Ended(u.live[n].runner, finish)
             && u.phase.ctx.last < finish <= u.phase.ctx.now
    requires Possible(Apply(After(w, before), Read(r)), steps)
    ensures var u := After(w, before);
            var v := Apply(u, Read(r));
            var x := After(v, steps);
            var made := Learns(u.phase.ctx, u.phase.items[0], r) && Carries(v, steps, Reporting(n))
                        && !ReportPending(x.phase, n);
            && x.hist.reports[n] == u.hist.reports[n] + (if made then 1 else 0)
            && x.hist.delivered[n] == u.hist.delivered[n] + (if made && r.posted then 1 else 0)
            && (n !in u.hist.late ==> u.hist.reports[n] == u.hist.delivered[n] == 0)
  {
    hide Apply, Enabled, Settled, ReportPending, DeliveryPending, ReportsFirst, Told, Learns, Ended, Carries,
         LiveSound, PhaseSound;
    var u := After(w, before);
    var v := Apply(u, Read(r));
    InitIsSound(w);
    RunKeepsSound(w, before);
    RunKeepsTold(w, before);
    StepKeepsSound(u, Read(r));
    StepKeepsReportsFirst(u, Read(r));
    CoveringReadSettles(u, r, finish);
    SettledOutcome(v, steps, n, finish);
  }

  lemma UnvisitedSettles(u: World, s: Step, n: string, finish: Time)
    requires Sound(u) && Enabled(u, s) && n in u.live && Ended(u.live[n].runner, finish)
    requires s.RestartManager? || (s.Begin? && !Listing(u.phase.snapshot, n))
    ensures var v := Apply(u, s);
            && Missed(v, n, finish)
            && v.hist.reports[n] == u.hist.reports[n] && v.hist.delivered[n] == u.hist.delivered[n]
  {
    hide CountUnlabelled, Budget, PhaseSound;
    assert PodSound(n, u.live[n], u.clock);
  }

  /** The other way to miss an end: the manager dies, or a pass begins whose list does not have the pod,
      between the end of the job and any visit of it. By MissedForever it is then never reported. */
  lemma UnvisitedIsMissed(w: World, steps: seq<Step>, s: Step, n: string, finish: Time)
    requires Init(w) && Possible(w, steps) && Enabled(After(w, steps), s)
    requires n in After(w, steps).live && Ended(After(w, steps).live[n].runner, finish)
    requires s.RestartManager? || (s.Begin? && !Listing(After(w, steps).phase.snapshot, n))
    ensures var u := After(w, steps);
            var v := Apply(u, s);
            && Missed(v, n, finish)
            && v.hist.reports[n] == u.hist.reports[n] && v.hist.delivered[n] == u.hist.delivered[n]
  {
    hide Sound, Apply, Enabled, Possible, After, Missed, Ended;
    InitIsSound(w);
    RunKeepsSound(w, steps);
    UnvisitedSettles(After(w, steps), s, n, finish);
  }

  lemma LatePublication(u: World, r: Replies)
    requires Sound(u) && AllTold(u) && Enabled(u, Read(r))
    requires u.phase.items[0].name in u.live
    requires u.live[u.phase.items[0].name].runner.pc.Publish?
    requires u.live[u.phase.items[0].name].runner.pc.outcome.finishedAt <= u.lastCheck
    ensures var n := u.phase.items[0].name;
            var v := Apply(u, Read(r));
            Missed(v, n, u.live[n].runner.pc.outcome.finishedAt) && v.hist.reports[n] == 0
  {
    hide Visit, PendingSound, ReportsFirst;
    var n := u.phase.items[0].name;
    assert PodSound(n, u.live[n], u.clock);
    assert Told(u, n);
    VisitReports(u.phase.ctx, u.phase.budget, u.phase.items[0], r);
    NextToVisit(u.phase.items, n);
    assert u.phase.items[0].name == n;
    AfterReadKeepsCluster(u, r);
    AfterReadKeepsReports(u, r);
  }

  /** The gap in the tiling: a listener reads the clock before it publishes its end. When the visit of
      the covering pass falls between the two, the end of the job is missed: by MissedForever it is
      never reported, although its finish time lies in a window and its pod was read in that pass. */
  lemma LatePublicationIsMissed(w: World, steps: seq<Step>, r: Replies)
    requires Init(w) && Possible(w, steps) && Enabled(After(w, steps), Read(r))
    requires var u := After(w, steps);
             && u.phase.items[0].name in u.live
             && u.live[u.phase.items[0].name].runner.pc.Publish?
             && u.live[u.phase.items[0].name].runner.pc.outcome.finishedAt <= u.lastCheck
    ensures var u := After(w, steps);
            var n := u.phase.items[0].name;
            var v := Apply(u, Read(r));
            Missed(v, n, u.live[n].runner.pc.outcome.finishedAt) && v.hist.reports[n] == 0
  {
    hide Apply, Possible, After, ReportsFirst;
    InitIsSound(w);
    RunKeepsSound(w, steps);
    RunKeepsTold(w, steps);
    LatePublication(After(w, steps), r);
  }

  /** What a report says, in every history: whenever a visit is about to report a pod, the report carries
      the result and the information of the very job that the pod's listener ran, goes to the channel that
      the job chose, or to the pool's when it chose none, and offers the buttons iff the job asked for
      extension and the settings allow it. */
  lemma ReportTellsTheJob(w: World, steps: seq<Step>, r: Replies, k: Call)
    requires Init(w) && Possible(w, steps) && Enabled(After(w, steps), Read(r))
    requires k.Post? && k in Apply(After(w, steps), Read(r)).phase.pending
    ensures var u := After(w, steps);
            && k.name == u.phase.items[0].name && k.name in u.live
            && u.live[k.name].runner.collected.Some?
            && var f := u.live[k.name].runner.collected.value;
               && k.result == (if f.failure then R.Failure else if f.cancelled then R.Cancelled
                               else if f.success then R.Success else R.Unknown)
               && k.jobInfo == f.jobInfo
               && k.channel == (if f.slackChannel == "" then u.phase.ctx.cfg.slackChannel else f.slackChannel)
               && (k.extendable <==> f.extend && u.phase.ctx.cfg.extendDuration != 0)
  {
    var u := After(w, steps);
    hide Init, Possible, After, Visit, PhaseSound;
    InitIsSound(w);
    RunKeepsSound(w, steps);
    VisitPosts(u.phase.ctx, u.phase.budget, u.phase.items[0], r, k);
    assert PodSound(k.name, u.live[k.name], u.clock);
  }
}
