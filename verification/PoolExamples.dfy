/** Runs that reach the edges of the theorems: a job's end that is missed, one that is reported twice,
    two clicks on "extend" that shorten a life, and a deletion that lands on a pod just finished. */
module PoolExamples {
  import opened Base
  import R = RunnerPod
  import opened ManagerPass
  import opened PassProperties
  import opened PoolWorld
  import opened PoolReports
  import opened PoolDeletion

  lemma OneMore(w: World, steps: seq<Step>, s: Step) returns (more: seq<Step>)
    requires Possible(w, steps) && Enabled(After(w, steps), s)
    ensures more == steps + [s] && Possible(w, more) && After(w, more) == Apply(After(w, steps), s)
  {
    more := steps + [s];
    assert more[..|steps|] == steps;
  }

  const SETTINGS := Config(1, 0, true, "ci", 0, HOUR)
  const FILES := R.Files(false, false, true, true, None, "")
  const POD := KubePod("p", 0, false, map[HASH_LABEL := "h"])

  function Start(cfg: Config): World {
    World(1, map[], {}, map[], cfg, 1, Idle, None,
          History(1, [], multiset{}, multiset{}, {}, cfg.maxRunnerPods - cfg.replicas, cfg.replicas, false, {}, NoClick, None,
                  [], 0, [], [], false))
  }

  // k successful acts of the listener at time t.
  function Acts(p: R.Pod, t: Time, k: nat): R.Pod {
    if k == 0 then p else R.Next(Acts(p, t, k - 1), R.Act(true, t, FILES))
  }

  lemma SixActs(t: Time)
    ensures var p := Acts(R.Fresh(false), t, 6); p.pc.Listen? && p.status == R.BLANK.(state := R.Running)
  {
    var p := R.Fresh(false);
    var a := R.Act(true, t, FILES);
    assert Acts(p, t, 0) == p;
    assert Acts(p, t, 1) == R.Next(p, a);
    var p2 := R.Next(R.Next(p, a), a);
    assert Acts(p, t, 2) == p2 && p2.pc.SetUp?;
    assert Acts(p, t, 3) == R.Next(p2, a);
    var p4 := R.Next(R.Next(p2, a), a);
    assert Acts(p, t, 4) == p4 && p4.pc.Configure?;
    assert Acts(p, t, 5) == R.Next(p4, a);
  }

  lemma EightActs(t: Time)
    ensures var p := Acts(R.Fresh(false), t, 8);
            p.pc.Publish? && p.pc.outcome.finishedAt == t && p.pc.outcome.extend
            && p.status == R.BLANK.(state := R.Running)
  {
    SixActs(t);
    assert Acts(R.Fresh(false), t, 7) == R.Next(Acts(R.Fresh(false), t, 6), R.Act(true, t, FILES));
  }

  lemma {:induction false} RunActs(w: World, steps: seq<Step>, k: nat) returns (more: seq<Step>)
    requires Possible(w, steps) && "p" in After(w, steps).live
    ensures var u := After(w, steps);
            Possible(w, more) && After(w, more) == SetRunner(u, "p", Acts(u.live["p"].runner, u.clock, k))
  {
    if k == 0 {
      more := steps;
      var u := After(w, steps);
      assert u.live["p" := u.live["p"]] == u.live;
    } else {
      var u := After(w, steps);
      more := RunActs(w, steps, k - 1);
      var v := After(w, more);
      more := OneMore(w, more, InPod("p", R.Act(true, u.clock, FILES)));
      assert v.live["p" := Live(u.live["p"].obj, Acts(u.live["p"].runner, u.clock, k))]
          == u.live["p" := Live(u.live["p"].obj, Acts(u.live["p"].runner, u.clock, k))];
    }
  }

  // The pool has one running pod that has not booted yet, and its manager is idle.
  function Booted(cfg: Config): World {
    Start(cfg).(clock := 2, used := {"p"},
                live := map["p" := Live(POD.(created := 1, running := true), R.Fresh(false))])
  }

  lemma Started(cfg: Config) returns (steps: seq<Step>)
    requires ValidConfig(cfg) && cfg.replicas > 0
    ensures Init(Start(cfg)) && Possible(Start(cfg), steps) && After(Start(cfg), steps) == Booted(cfg)
  {
    var w := Start(cfg);
    assert Labelled(w) == {};
    LabelKeysDiffer();
    steps := OneMore(w, [], Create(POD, false));
    steps := OneMore(w, steps, SetRunning("p", true));
    steps := OneMore(w, steps, Tick(2));
    assert Booted(cfg).live == After(w, steps).live;
    assert {"p"} == {} + {"p"};
  }

  // From an idle manager and the single pod p to the middle of a pass.
  lemma ListAndBegin(w: World, steps: seq<Step>) returns (more: seq<Step>)
    requires Possible(w, steps)
    requires var u := After(w, steps); u.phase.Idle? && u.live.Keys == {"p"} && u.live["p"].obj.name == "p"
    ensures steps <= more && Possible(w, more)
    ensures var u := After(w, steps);
            var v := After(w, more);
            && v.phase.Visiting? && v.phase.items == [u.live["p"].obj] && v.phase.pending == []
            && v.phase.ctx == Ctx(u.clock, u.lastCheck, u.cfg, [])
            && v.live == u.live && v.clock == v.lastCheck == u.clock && v.cfg == u.cfg && v.agent == u.agent
            && v.hist.reports == u.hist.reports && v.hist.late == u.hist.late
            && v.hist.windows == u.hist.windows + [Window(u.lastCheck, u.clock)] && v.hist.seen == []
  {
    hide CountUnlabelled, Budget;
    var u := After(w, steps);
    var items := [u.live["p"].obj];
    assert Snapshot(u, items) by {
      assert items[0].name == "p";
    }
    more := OneMore(w, steps, List(items, []));
    more := OneMore(w, more, Begin);
  }

  /** A concrete run whose end of job is missed: its finish time 2 lies in the window (1, 2] of a pass
      that reads the pod, and by MissedForever no continuation ever reports it. */
  lemma MissedReportExists() returns (steps: seq<Step>)
    ensures Init(Start(SETTINGS)) && Possible(Start(SETTINGS), steps)
    ensures var v := After(Start(SETTINGS), steps);
            && v.hist.windows == [Window(1, 2)] && |v.hist.seen| == 1
            && v.hist.reports["p"] == 0 && Missed(v, "p", 2)
            && "p" in v.live && v.live["p"].runner.pc.Publish? && v.live["p"].runner.pc.outcome.finishedAt == 2
  {
    hide Visit, Missed, Init, Possible, After, Acts;
    steps := Started(SETTINGS);
    steps := RunActs(Start(SETTINGS), steps, 8);
    EightActs(2);
    var p := After(Start(SETTINGS), steps).live["p"].runner;
    assert After(Start(SETTINGS), steps).live.Keys == {"p"};
    steps := ListAndBegin(Start(SETTINGS), steps);
    var u := After(Start(SETTINGS), steps);
    assert u.hist.windows == [Window(1, 2)];
    var r := Replies(Some(p.status), true, true, true, true, true, true, false);
    LatePublicationIsMissed(Start(SETTINGS), steps, r);
    steps := OneMore(Start(SETTINGS), steps, Read(r));
    AfterReadKeepsCluster(u, r);
  }

  lemma NinthAct(t: Time)
    ensures var st := Acts(R.Fresh(false), t, 9).status;
            st.state == R.Debugging && FinishTime(st) == t && st.extend == Some(true) && st.deletionTime == None
            && st.finishedAt.Some?
  {
    EightActs(t);
  }

  // A read of the finished pod, whose deletion then fails, and the report.
  lemma ReadAndReport(w: World, steps: seq<Step>, t: Time) returns (more: seq<Step>)
    requires Possible(w, steps)
    requires var u := After(w, steps);
             && u.phase.Visiting? && u.phase.items == [POD.(created := 1, running := true)] && u.phase.pending == []
             && u.live.Keys == {"p"} && u.live["p"].obj == u.phase.items[0]
             && u.live["p"].runner.status == Acts(R.Fresh(false), t, 9).status
             && u.phase.ctx.cfg == SETTINGS && u.phase.ctx.last < t
    ensures Possible(w, more)
    ensures var u := After(w, steps);
            var v := After(w, more);
            && v.phase == Idle && v.live == u.live && v.clock == u.clock && v.lastCheck == u.lastCheck && v.cfg == u.cfg
            && v.hist.reports == u.hist.reports + multiset{"p"}
  {
    hide Possible, After, Acts;
    NinthAct(t);
    var u := After(w, steps);
    var st := u.live["p"].runner.status;
    var r := Replies(Some(st), true, false, true, true, true, true, false);
    more := OneMore(w, steps, Read(r));
    var post := Post("p", "ci", st.result, false, st.jobInfo, true);
    assert After(w, more).phase.pending == [if st.slackChannel == "" then post else post.(channel := st.slackChannel), Delete("p", false)];
    more := OneMore(w, more, Do);
    assert After(w, more).phase.pending == [Delete("p", false)];
    more := OneMore(w, more, Do);
    more := OneMore(w, more, End);
  }

  /** A concrete run that reports one job twice: it ends at 3, after the pass of time 2 began and
      before that pass reads it, so that the next pass finds it inside its own window too. */
  lemma ReportedTwiceExists() returns (steps: seq<Step>)
    ensures Init(Start(SETTINGS)) && Possible(Start(SETTINGS), steps) && After(Start(SETTINGS), steps).hist.reports["p"] == 2
  {
    hide Visit, Init, Possible, After, Acts;
    steps := Started(SETTINGS);
    assert After(Start(SETTINGS), steps).live.Keys == {"p"};
    steps := ListAndBegin(Start(SETTINGS), steps);
    steps := OneMore(Start(SETTINGS), steps, Tick(3));
    steps := RunActs(Start(SETTINGS), steps, 9);
    var p := After(Start(SETTINGS), steps).live["p"];
    assert p.obj == POD.(created := 1, running := true);
    assert After(Start(SETTINGS), steps).live.Keys == {"p"};
    steps := ReadAndReport(Start(SETTINGS), steps, 3);
    steps := ListAndBegin(Start(SETTINGS), steps);
    steps := ReadAndReport(Start(SETTINGS), steps, 3);
  }

  const EXTENDING := SETTINGS.(extendDuration := 5 * HOUR)

  lemma ReadForExtension(w: World, steps: seq<Step>, put: bool) returns (more: seq<Step>)
    requires Possible(w, steps)
    requires var u := After(w, steps);
             && u.phase.Visiting? && u.phase.items == [POD.(created := 1, running := true)] && u.phase.pending == []
             && "p" in u.live && u.live["p"].runner.status == Acts(R.Fresh(false), 2, 9).status
             && u.phase.ctx == Ctx(2, 1, EXTENDING, [])
    ensures Possible(w, more)
    ensures var u := After(w, steps);
            var v := After(w, more);
            && v.live == u.live && v.cfg == u.cfg && v.clock == u.clock && v.lastCheck == u.lastCheck && v.agent == u.agent
            && v.phase.Visiting? && v.phase.ctx == u.phase.ctx && |v.phase.pending| >= 2
            && v.phase.pending[0].Post? && v.phase.pending[0].name == "p" && v.phase.pending[0].delivered
            && v.phase.pending[1] == PutDeadline("p", 2 + 5 * HOUR, put)
  {
    hide Possible, After, Acts, Adopt;
    NinthAct(2);
    var u := After(w, steps);
    var st := u.live["p"].runner.status;
    var r := Replies(Some(st), true, true, put, true, true, true, false);
    more := OneMore(w, steps, Read(r));
    assert !MustDelete(u.phase.ctx, u.phase.items[0], st);
    assert Visit(u.phase.ctx, u.phase.budget, u.phase.items[0], r).calls[..2]
        == Report(u.phase.ctx, u.phase.items[0], st, r) + SetDeadline(u.phase.ctx, u.phase.items[0], st, r);
  }

  // A pod that finished at 2 and asked for extension has been read and reported; the controller's
  // deadline for it, five hours away, is the next call, which fails if put is false.
  lemma ReportedAndDue(put: bool) returns (steps: seq<Step>)
    ensures Init(Start(EXTENDING)) && Possible(Start(EXTENDING), steps)
    ensures var u := After(Start(EXTENDING), steps);
            && u.phase.Visiting? && u.phase.pending != [] && u.phase.pending[0] == PutDeadline("p", 2 + 5 * HOUR, put)
            && u.phase.ctx.cfg == u.cfg == EXTENDING && u.clock == u.lastCheck == 2 && u.agent == None
            && "p" in u.hist.delivered && u.live.Keys == {"p"} && u.live["p"].obj.name == "p" && u.live["p"].obj.running
            && u.live["p"].runner.status == Acts(R.Fresh(false), 2, 9).status
  {
    hide Visit, Init, Possible, After, Acts;
    steps := Started(EXTENDING);
    steps := RunActs(Start(EXTENDING), steps, 9);
    NinthAct(2);
    var p := After(Start(EXTENDING), steps).live["p"];
    assert p.obj == POD.(created := 1, running := true);
    assert After(Start(EXTENDING), steps).live.Keys == {"p"};
    steps := ListAndBegin(Start(EXTENDING), steps);
    var u := After(Start(EXTENDING), steps);
    steps := ReadForExtension(Start(EXTENDING), steps, put);
    steps := OneMore(Start(EXTENDING), steps, Do);
  }

  lemma LateRead(c: Ctx, b: int, po: KubePod, r: Replies)
    requires po.running && po.name == "p" && c.last == 2 && c.now == 2 + 2 * HOUR + 1 && r.deleted
    requires r.status == Some(Acts(R.Fresh(false), 2, 9).status.(deletionTime := Some(2 + 2 * HOUR)))
    ensures Visit(c, b, po, r).calls == [Delete("p", true)]
  {
    hide Acts, Adopt;
    NinthAct(2);
  }

  // The agent has just set the deadline 2 + 2 h on the finished pod; the manager restarts, and a
  // nanosecond after that deadline its first pass deletes the pod.
  lemma ThenDeleted(w: World, steps: seq<Step>) returns (more: seq<Step>)
    requires Possible(w, steps)
    requires var u := After(w, steps);
             && u.clock == 2 && u.cfg == EXTENDING && u.live.Keys == {"p"}
             && u.live["p"].obj.name == "p" && u.live["p"].obj.running
             && u.live["p"].runner.status == Acts(R.Fresh(false), 2, 9).status.(deletionTime := Some(2 + 2 * HOUR))
    ensures steps <= more && Possible(w, more)
    ensures var v := After(w, more); v.clock == 2 + 2 * HOUR + 1 && "p" !in v.live
  {
    hide Possible, After, Acts, Visit;
    NinthAct(2);
    more := OneMore(w, steps, RestartManager);
    more := OneMore(w, more, Tick(2 + 2 * HOUR + 1));
    more := ListAndBegin(w, more);
    var u := After(w, more);
    var st := u.live["p"].runner.status;
    var r := Replies(Some(st), true, true, true, true, true, true, false);
    more := OneMore(w, more, Read(r));
    LateRead(u.phase.ctx, u.phase.budget, u.phase.items[0], r);
    more := OneMore(w, more, Do);
  }

  // The pod's deadline is one extension after its finish, and it gets deleted just after that.
  ghost predicate EndsEarly(w: World, steps: seq<Step>, ended: seq<Step>)
    requires Possible(w, steps)
  {
    && steps <= ended && Possible(w, ended)
    && After(w, ended).clock == 2 + 2 * HOUR + 1 && "p" !in After(w, ended).live
  }

  ghost predicate HasDeadline(w: World, t: Time) {
    "p" in w.live && w.live["p"].runner.status.deletionTime == Some(t)
  }

  // The pod has no deadline of its own, and five hours to live under the settings of the pass.
  ghost predicate DueByDefault(w: World) {
    && w.phase.Visiting? && "p" in w.live && w.live["p"].runner.status.deletionTime == None
    && Deadline(w.phase.ctx, w.live["p"].runner.status) == Some(2 + 5 * HOUR)
  }

  /** A reachable history in which a click costs a finished pod three hours of life: the controller's
      deadline of F + 5 h was lost, the click reads none, and the pod is deleted just after F + 2 h. */
  lemma UnsetDeadlineShortened() returns (steps: seq<Step>, ended: seq<Step>)
    ensures Init(Start(EXTENDING)) && Possible(Start(EXTENDING), steps) && DueByDefault(After(Start(EXTENDING), steps))
    ensures Possible(Start(EXTENDING), steps + [ClickExtend("p"), SendClick(true)])
    ensures HasDeadline(After(Start(EXTENDING), steps + [ClickExtend("p"), SendClick(true)]), 2 + 2 * HOUR)
    ensures EndsEarly(Start(EXTENDING), steps + [ClickExtend("p"), SendClick(true)], ended)
  {
    hide Possible, After, Acts, Init, Visit;
    var w := Start(EXTENDING);
    steps := ReportedAndDue(false);
    steps := OneMore(w, steps, Do);
    NinthAct(2);
    var clicked := OneMore(w, steps, ClickExtend("p"));
    clicked := OneMore(w, clicked, SendClick(true));
    assert clicked == steps + [ClickExtend("p"), SendClick(true)];
    ended := ThenDeleted(w, clicked);
  }

  /** A reachable history in which a deadline that is set moves three hours earlier: the click reads
      none, the controller then sets F + 5 h, and the agent's PUT replaces it by F + 2 h. */
  lemma SetDeadlineShortened() returns (steps: seq<Step>, ended: seq<Step>)
    ensures Init(Start(EXTENDING)) && Possible(Start(EXTENDING), steps)
    ensures HasDeadline(After(Start(EXTENDING), steps), 2 + 5 * HOUR)
    ensures After(Start(EXTENDING), steps).hist.click == ExtendClick(2, None, Some(2 + 5 * HOUR))
    ensures Possible(Start(EXTENDING), steps + [SendClick(true)])
    ensures HasDeadline(After(Start(EXTENDING), steps + [SendClick(true)]), 2 + 2 * HOUR)
    ensures EndsEarly(Start(EXTENDING), steps + [SendClick(true)], ended)
  {
    hide Possible, After, Acts, Init, Visit;
    var w := Start(EXTENDING);
    steps := ReportedAndDue(true);
    NinthAct(2);
    steps := OneMore(w, steps, ClickExtend("p"));
    steps := OneMore(w, steps, Do);
    var sent := OneMore(w, steps, SendClick(true));
    ended := ThenDeleted(w, sent);
  }

  lemma ThreeActs(p: R.Pod, t: Time)
    requires p.pc.Listen? && p.status == R.BLANK.(state := R.Running)
    ensures var st := Acts(p, t, 3).status; AskedForExtension(st) && FinishTime(st) == t
  {
    var a := R.Act(true, t, FILES);
    assert Acts(p, t, 0) == p;
    assert Acts(p, t, 1) == R.Next(p, a);
    assert Acts(p, t, 2) == R.Next(R.Next(p, a), a);
  }

  lemma OldRead(c: Ctx, b: int, po: KubePod, r: Replies)
    requires po == POD.(created := 1, running := true) && c.now == 2 * HOUR && c.cfg == EXTENDING && c.runners == []
    requires r.deleted && r.status == Some(R.BLANK.(state := R.Running))
    ensures Visit(c, b, po, r).calls == [Delete("p", true)]
  {
    hide Adopt;
  }

  // The pod p, seen running two hours after its creation, is about to be deleted for its age.
  lemma CondemnedRunning() returns (steps: seq<Step>)
    ensures Init(Start(EXTENDING)) && Possible(Start(EXTENDING), steps)
    ensures var u := After(Start(EXTENDING), steps);
            && u.clock == 2 * HOUR && u.live.Keys == {"p"}
            && u.live["p"].runner.pc.Listen? && u.live["p"].runner.status == R.BLANK.(state := R.Running)
            && u.phase.Visiting? && u.phase.pending == [Delete("p", true)] && u.phase.ctx.now == 2 * HOUR
            && u.phase.ctx.cfg == EXTENDING
  {
    hide Visit, Init, Possible, After, Acts;
    var w := Start(EXTENDING);
    steps := Started(EXTENDING);
    steps := RunActs(w, steps, 6);
    SixActs(2);
    steps := OneMore(w, steps, Tick(2 * HOUR));
    var p := After(w, steps).live["p"];
    assert p.obj == POD.(created := 1, running := true);
    assert After(w, steps).live.Keys == {"p"};
    steps := ListAndBegin(w, steps);
    var u := After(w, steps);
    var r := Replies(Some(p.runner.status), true, true, true, true, true, true, false);
    OldRead(u.phase.ctx, u.phase.budget, u.phase.items[0], r);
    steps := OneMore(w, steps, Read(r));
  }

  // The next call deletes the pod, which asked for extension, finished at this time, and has life left.
  ghost predicate DiesEarly(w: World, finish: Time) {
    && w.phase.Visiting? && w.phase.pending == [Delete("p", true)] && Enabled(w, Do)
    && "p" in w.live && AskedForExtension(w.live["p"].runner.status) && FinishTime(w.live["p"].runner.status) == finish
    && w.phase.ctx.now < finish + w.phase.ctx.cfg.extendDuration
    && "p" !in Apply(w, Do).live
  }

  /** A reachable history, without a click, in which a pod that asked for five hours of extension is
      deleted as it finishes: the visit read it as running, past its recreate deadline and not yet busy
      in the list, and its job ended before the deletion landed. */
  lemma FinishedPodDeletedForAge() returns (steps: seq<Step>)
    ensures Init(Start(EXTENDING)) && Possible(Start(EXTENDING), steps)
    ensures DiesEarly(After(Start(EXTENDING), steps), 2 * HOUR + 1)
  {
    hide Init, Possible, After, Acts, Visit;
    var w := Start(EXTENDING);
    steps := CondemnedRunning();
    steps := OneMore(w, steps, Tick(2 * HOUR + 1));
    var u := After(w, steps);
    steps := RunActs(w, steps, 3);
    ThreeActs(u.live["p"].runner, 2 * HOUR + 1);
  }
}
