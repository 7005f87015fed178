/** The program inside a runner pod: the listener goroutine, cut at the points where another
    goroutine or a container crash can interleave, and the two HTTP handlers. */
module RunnerPod {
  import opened Base

  datatype State = Unset | Initializing | Running | Debugging | Stale

  datatype JobResult = NoResult | Failure | Cancelled | Success | Unknown

  // What GET /status serves.
  datatype Status = Status(
    state: State,
    result: JobResult,
    finishedAt: Option<Time>,
    deletionTime: Option<Time>,
    extend: Option<bool>,
    jobInfo: Option<string>,
    slackChannel: string
  )

  const BLANK := Status(Unset, NoResult, None, None, None, None, "")

  // The files a job leaves in the var directory.
  datatype Files = Files(failure: bool, cancelled: bool, success: bool, extend: bool, jobInfo: Option<string>, slackChannel: string)

  // What the listener collected about a finished job before it publishes it.
  datatype Outcome = Outcome(result: JobResult, extend: bool, finishedAt: Time, jobInfo: Option<string>, slackChannel: string)

  function ResultOf(f: Files): (r: JobResult)
    ensures r != NoResult
    ensures r == Failure <==> f.failure
    ensures r == Unknown <==> !f.failure && !f.cancelled && !f.success
    ensures f.cancelled && r != Failure ==> r == Cancelled
    ensures r == Cancelled ==> f.cancelled
    ensures r == Success ==> f.success && !f.cancelled
  {
    if f.failure then Failure
    else if f.cancelled then Cancelled
    else if f.success then Success
    else Unknown
  }

  // Where the listener goroutine stands: each name is the action it performs next.
  datatype Pc =
    | Boot
    | MarkStale
    | Announce
    | SetUp
    | ReadToken
    | Configure
    | AnnounceRunning
    | Listen
    | Collect
    | Publish(outcome: Outcome)
    | Waiting
    | Exited

  // started is the flag file, the only thing that outlives a container; the three counters record how
  // often an action was begun in the whole life of the pod, and collected the files that its job left.
  datatype Pod = Pod(
    hasSetup: bool,
    pc: Pc,
    status: Status,
    started: bool,
    setups: nat,
    configures: nat,
    listens: nat,
    collected: Option<Files>
  )

  function Fresh(hasSetup: bool): Pod {
    Pod(hasSetup, Boot, BLANK, false, 0, 0, 0, None)
  }

  // Act is the next action of the listener, Put a PUT /deletion_time, and Restart a crash of the
  // container at any point, after which the kubelet runs the program again on the same directory.
  datatype Step =
    | Act(ok: bool, now: Time, files: Files)
    | Put(deadline: Time)
    | Restart

  function Finished(st: Status, o: Outcome): Status {
    Status(Debugging, o.result, Some(o.finishedAt), st.deletionTime, Some(o.extend), o.jobInfo, o.slackChannel)
  }

  function Next(p: Pod, s: Step): Pod {
    match s
    case Put(t) => p.(status := p.status.(deletionTime := Some(t)))
    case Restart => p.(pc := Boot, status := BLANK)
    case Act(ok, now, files) =>
      match p.pc
      case Boot =>
        if p.started then p.(pc := MarkStale)
        else if ok then p.(pc := Announce, started := true)
        else p.(pc := Exited)
      case MarkStale => p.(pc := Waiting, status := p.status.(state := Stale))
      case Announce => p.(pc := SetUp, status := p.status.(state := Initializing))
      case SetUp =>
        if !p.hasSetup then p.(pc := ReadToken)
        else p.(pc := if ok then ReadToken else Exited, setups := p.setups + 1)
      case ReadToken => p.(pc := if ok then Configure else Exited)
      case Configure => p.(pc := if ok then AnnounceRunning else Exited, configures := p.configures + 1)
      case AnnounceRunning => p.(pc := Listen, status := p.status.(state := Running))
      case Listen => p.(pc := if ok then Collect else Exited, listens := p.listens + 1)
      case Collect =>
        p.(pc := Publish(Outcome(ResultOf(files), files.extend, now, files.jobInfo, files.slackChannel)),
           collected := Some(files))
      case Publish(o) => p.(pc := Waiting, status := Finished(p.status, o))
      case Waiting => p
      case Exited => p
  }

  function Run(p: Pod, steps: seq<Step>): Pod {
    if steps == [] then p else Next(Run(p, steps[..|steps| - 1]), steps[|steps| - 1])
  }

  // A listener that got past the flag file in the present container and has not published yet.
  predicate Working(p: Pod) {
    p.pc.Announce? || p.pc.SetUp? || p.pc.ReadToken? || p.pc.Configure? || p.pc.AnnounceRunning?
    || p.pc.Listen? || p.pc.Collect? || p.pc.Publish?
  }

  // The pod can still come to publish the end of a job.
  predicate MayFinish(p: Pod) {
    !p.started || Working(p)
  }

  // A served "debugging" carries its finish time, extension flag and result; nothing else does.
  predicate Coherent(st: Status) {
    if st.state == Debugging then st.finishedAt.Some? && st.extend.Some? && st.result != NoResult
    else st == BLANK.(state := st.state, deletionTime := st.deletionTime)
  }

  // What the pod tells of its job is what these files say.
  predicate Tells(f: Files, result: JobResult, extend: bool, jobInfo: Option<string>, slackChannel: string) {
    && result == (if f.failure then Failure else if f.cancelled then Cancelled else if f.success then Success else Unknown)
    && extend == f.extend && jobInfo == f.jobInfo && slackChannel == f.slackChannel
  }

  ghost predicate Valid(p: Pod) {
    && Coherent(p.status)
    && p.setups <= 1 && p.configures <= 1 && p.listens <= 1
    && (!p.started ==> (p.pc.Boot? || p.pc.Exited?) && p.setups == p.configures == p.listens == 0)
    && (p.pc.MarkStale? || p.pc.Waiting? || Working(p) ==> p.started)
    && (p.pc.Announce? || p.pc.SetUp? ==> p.setups == 0)
    && (p.pc.Announce? || p.pc.SetUp? || p.pc.ReadToken? || p.pc.Configure? ==> p.configures == 0)
    && (p.pc.Announce? || p.pc.SetUp? || p.pc.ReadToken? || p.pc.Configure? || p.pc.AnnounceRunning? || p.pc.Listen?
        ==> p.listens == 0)
    && (p.pc.AnnounceRunning? || p.pc.Listen? || p.pc.Collect? || p.pc.Publish? ==> p.configures == 1)
    && (p.pc.Collect? || p.pc.Publish? ==> p.listens == 1)
    && (!p.started || (Working(p) && !p.pc.Publish?) ==> p.collected == None)
    && (p.pc.Publish? ==>
          var o := p.pc.outcome; p.collected.Some? && Tells(p.collected.value, o.result, o.extend, o.jobInfo, o.slackChannel))
    && (p.status.state == Debugging ==>
          && p.collected.Some? && p.status.extend.Some?
          && Tells(p.collected.value, p.status.result, p.status.extend.value, p.status.jobInfo, p.status.slackChannel))
    && (p.status.state == Debugging ==> p.pc.Waiting? && p.listens == 1)
    && (p.status.state == Stale ==> p.pc.Waiting?)
    && (p.pc.Waiting? ==> p.status.state == Debugging || p.status.state == Stale)
    && (p.pc.Boot? || p.pc.MarkStale? ==> p.status.state == Unset)
    && (p.status.state == Running ==> p.configures == 1)
  }

  lemma NextKeepsValid(p: Pod, s: Step)
    requires Valid(p)
    ensures Valid(Next(p, s))
  {
  }

  lemma {:induction false} RunKeepsValid(p: Pod, steps: seq<Step>)
    requires Valid(p)
    ensures Valid(Run(p, steps))
  {
    if steps != [] {
      RunKeepsValid(p, steps[..|steps| - 1]);
      NextKeepsValid(Run(p, steps[..|steps| - 1]), steps[|steps| - 1]);
    }
  }

  /** Whatever crashes, errors and requests happen, in whatever order, setup command, configure and
      listen are each begun at most once; the pod serves "running" only after it was configured and
      "debugging" only after it listened. */
  lemma {:induction false} OneRegistration(hasSetup: bool, steps: seq<Step>)
    ensures var p := Run(Fresh(hasSetup), steps);
            && p.setups <= 1 && p.configures <= 1 && p.listens <= 1
            && (p.status.state == Running ==> p.configures == 1)
            && (p.status.state == Debugging ==> p.listens == 1)
  {
    RunKeepsValid(Fresh(hasSetup), steps);
  }

  /** Every status ever served is coherent. */
  lemma {:induction false} ServedStatusCoherent(hasSetup: bool, steps: seq<Step>)
    ensures Coherent(Run(Fresh(hasSetup), steps).status)
  {
    RunKeepsValid(Fresh(hasSetup), steps);
  }

  // The flag file is there and the container that wrote it is gone or has given up.
  predicate Dirty(p: Pod) {
    p.started && (p.pc.Boot? || p.pc.MarkStale? || p.pc.Exited? || (p.pc.Waiting? && p.status.state == Stale))
  }

  // What a step does to a dirty pod whose program runs.
  lemma StepKeepsDirty(p: Pod, s: Step)
    requires Valid(p) && Dirty(p) && !p.pc.Exited?
    ensures var q := Next(p, s);
            && Dirty(q) && !q.pc.Exited?
            && q.setups == p.setups && q.configures == p.configures && q.listens == p.listens
  {
  }

  /** Once a container restarts on a used directory the pod never again runs its setup, registers
      or listens: all it ever publishes is "stale". A served "unset" is a container about to say so. */
  lemma {:induction false} DirtyForever(p: Pod, steps: seq<Step>)
    requires Valid(p) && Dirty(p) && !p.pc.Exited?
    ensures var q := Run(p, steps);
            && Valid(q) && Dirty(q) && !q.pc.Exited?
            && q.setups == p.setups && q.configures == p.configures && q.listens == p.listens
            && (q.status.state == Unset || q.status.state == Stale)
  {
    hide Next;
    if steps != [] {
      DirtyForever(p, steps[..|steps| - 1]);
      StepKeepsDirty(Run(p, steps[..|steps| - 1]), steps[|steps| - 1]);
      NextKeepsValid(Run(p, steps[..|steps| - 1]), steps[|steps| - 1]);
    }
  }

  /** A restart makes a pod dirty exactly when its flag file had been written. */
  lemma RestartDirtiesIffStarted(p: Pod)
    requires Valid(p)
    ensures Dirty(Next(p, Restart)) <==> p.started
    ensures MayFinish(Next(p, Restart)) <==> !p.started
  {
  }

  /** A pod that is done can no longer finish a job, and a finish time, once served, never changes
      while the pod serves "debugging". */
  lemma FinishIsFinal(p: Pod, s: Step)
    requires Valid(p)
    ensures !MayFinish(p) ==> !MayFinish(Next(p, s))
    ensures !MayFinish(p) && p.status.state != Debugging ==> Next(p, s).status.state != Debugging
    ensures p.status.state == Debugging && Next(p, s).status.state == Debugging ==>
              Next(p, s).status.(deletionTime := p.status.deletionTime) == p.status
    ensures p.status.state == Debugging ==> !MayFinish(p)
    ensures p.collected.Some? ==> Next(p, s).collected == p.collected
  {
  }

  /** Every end that is ever served tells of the files that the job left, which are collected once. */
  lemma {:induction false} ServedEndTellsTheJob(hasSetup: bool, steps: seq<Step>)
    ensures var p := Run(Fresh(hasSetup), steps);
            p.status.state == Debugging ==>
              && p.collected.Some? && p.status.extend.Some?
              && Tells(p.collected.value, p.status.result, p.status.extend.value, p.status.jobInfo, p.status.slackChannel)
  {
    RunKeepsValid(Fresh(hasSetup), steps);
  }

  // What the file system, the launched programs and the clock answer to one run of the listener.
  datatype Results = Results(createOk: bool, setupOk: bool, tokenOk: bool, configureOk: bool, listenOk: bool, files: Files, now: Time)

  // The listener's next act under these results.
  function ActUnder(pc: Pc, env: Results): Step {
    var ok := match pc
      case Boot => env.createOk
      case SetUp => env.setupOk
      case ReadToken => env.tokenOk
      case Configure => env.configureOk
      case Listen => env.listenOk
      case _ => true;
    Act(ok, env.now, env.files)
  }

  function ActsLeft(pc: Pc): nat {
    match pc
    case Boot => 9
    case Announce => 8
    case SetUp => 7
    case ReadToken => 6
    case Configure => 5
    case AnnounceRunning => 4
    case Listen => 3
    case Collect => 2
    case Publish(_) => 1
    case MarkStale => 1
    case Waiting => 0
    case Exited => 0
  }

  /** The listener run to its end without a crash. */
  function Undisturbed(p: Pod, env: Results): (q: Pod)
    ensures q.pc.Waiting? || q.pc.Exited?
    decreases ActsLeft(p.pc)
  {
    if p.pc.Waiting? || p.pc.Exited? then p else Undisturbed(Next(p, ActUnder(p.pc, env)), env)
  }

  lemma {:induction false} RunCons(p: Pod, s: Step, rest: seq<Step>)
    ensures Run(p, [s] + rest) == Run(Next(p, s), rest)
  {
    if rest == [] {
      assert [s][..0] == [];
      assert Run(p, [s]) == Next(Run(p, []), s);
      assert [s] + rest == [s];
    } else {
      var n := |rest| - 1;
      RunCons(p, s, rest[..n]);
      assert ([s] + rest)[..n + 1] == [s] + rest[..n];
    }
  }

  lemma {:induction false} UndisturbedIsARun(p: Pod, env: Results) returns (acts: seq<Step>)
    ensures forall s :: s in acts ==> s.Act?
    ensures Undisturbed(p, env) == Run(p, acts)
    decreases ActsLeft(p.pc)
  {
    if p.pc.Waiting? || p.pc.Exited? {
      acts := [];
    } else {
      var s := ActUnder(p.pc, env);
      var rest := UndisturbedIsARun(Next(p, s), env);
      RunCons(p, s, rest);
      acts := [s] + rest;
    }
  }

  // Where an undisturbed listener ends, failure by failure.
  ghost predicate EndsAs(p: Pod, env: Results, q: Pod) {
    var setUp := !p.started && env.createOk;
    var configured := setUp && (p.hasSetup ==> env.setupOk) && env.tokenOk;
    var listened := configured && env.configureOk;
    var finished := listened && env.listenOk;
    && q.hasSetup == p.hasSetup
    && q.started == (p.started || setUp)
    && q.setups == p.setups + (if setUp && p.hasSetup then 1 else 0)
    && q.configures == p.configures + (if configured then 1 else 0)
    && q.listens == p.listens + (if listened then 1 else 0)
    && q.collected == (if finished then Some(env.files) else p.collected)
    && q.pc == (if p.started || finished then Waiting else Exited)
    && q.status.state == (if p.started then Stale else if finished then Debugging else if listened then Running
                          else if setUp then Initializing else p.status.state)
    && q.status.deletionTime == p.status.deletionTime
    && (if finished then
          && q.status.finishedAt == Some(env.now) && q.status.result == ResultOf(env.files)
          && q.status.extend == Some(env.files.extend)
          && q.status.jobInfo == env.files.jobInfo && q.status.slackChannel == env.files.slackChannel
        else
          q.status == p.status.(state := q.status.state))
  }

  // The part from configure on.
  lemma ConfigureEnd(p: Pod, env: Results)
    requires p.pc.Configure?
    ensures var q := Undisturbed(p, env);
            var listened := p.(configures := p.configures + 1, listens := p.listens + 1, status := p.status.(state := Running));
            var o := Outcome(ResultOf(env.files), env.files.extend, env.now, env.files.jobInfo, env.files.slackChannel);
            q == if !env.configureOk then p.(pc := Exited, configures := p.configures + 1)
                 else if !env.listenOk then listened.(pc := Exited)
                 else listened.(pc := Waiting, status := Finished(p.status, o), collected := Some(env.files))
  {
    var p1 := Next(p, ActUnder(p.pc, env));
    if env.configureOk {
      var p2 := Next(p1, ActUnder(p1.pc, env));
      var p3 := Next(p2, ActUnder(p2.pc, env));
      assert Undisturbed(p1, env) == Undisturbed(p3, env);
      if env.listenOk {
        var p4 := Next(p3, ActUnder(p3.pc, env));
        var p5 := Next(p4, ActUnder(p4.pc, env));
        assert Undisturbed(p3, env) == Undisturbed(p5, env) == p5;
      }
    }
  }

  /** Where a listener that starts on a container ends, under any results and without a crash. */
  lemma UndisturbedEnd(p: Pod, env: Results)
    requires p.pc.Boot?
    ensures EndsAs(p, env, Undisturbed(p, env))
  {
    var p1 := Next(p, ActUnder(p.pc, env));
    var p2 := Next(p1, ActUnder(p1.pc, env));
    assert Undisturbed(p, env) == Undisturbed(p2, env);
    if !p.started && env.createOk {
      var p3 := Next(p2, ActUnder(p2.pc, env));
      assert Undisturbed(p2, env) == Undisturbed(p3, env);
      if p3.pc.ReadToken? {
        var p4 := Next(p3, ActUnder(p3.pc, env));
        assert Undisturbed(p3, env) == Undisturbed(p4, env);
        if env.tokenOk {
          ConfigureEnd(p4, env);
        }
      }
    }
  }

  // The HTTP request as far as the handlers look at it; body is None when it does not decode.
  datatype Request = Request(verb: string, contentType: string, body: Option<Time>)

  /** The Runner object. Its status fields are guarded by one mutex, so that each method below,
      or each assignment group in RunListener, is one atomic section. */
  class Runner {
    const hasSetup: bool
    var status: Status
    // The started flag file and how often each outside program was launched.
    var startedFlag: bool
    var setups: nat
    var configures: nat
    var listens: nat
    ghost var collected: Option<Files>
    ghost var pc: Pc

    ghost function View(): Pod
      reads this
    {
      Pod(hasSetup, pc, status, startedFlag, setups, configures, listens, collected)
    }

    constructor (hasSetup: bool)
      ensures View() == Fresh(hasSetup)
    {
      this.hasSetup := hasSetup;
      status := BLANK;
      startedFlag, setups, configures, listens := false, 0, 0, 0;
      pc, collected := Boot, None;
    }

    /** A restarted container: a new Runner over the old directory. */
    method Reboot()
      modifies this
      ensures View() == Next(old(View()), Restart)
      ensures status == BLANK && startedFlag == old(startedFlag)
    {
      status := BLANK;
      pc := Boot;
    }

    /** The goroutine, undisturbed by a crash: by UndisturbedEnd the straight-line program does what
        the machine does under the same results, and it ends waiting (stale on a used directory, debugging on a clean
        one) exactly when it reports no error. */
    method RunListener(env: Results) returns (err: bool)
      requires pc == Boot
      modifies this
      ensures EndsAs(old(View()), env, View())
      ensures err <==> pc == Exited
      ensures !err ==> status.state == (if old(startedFlag) then Stale else Debugging)
    {
      if startedFlag {
        status := status.(state := Stale);
        pc := Waiting;
        return false;
      }
      pc := Exited;
      if !env.createOk {
        return true;
      }
      startedFlag := true;

      status := status.(state := Initializing);
      if hasSetup {
        setups := setups + 1;
        if !env.setupOk {
          return true;
        }
      }
      if !env.tokenOk {
        return true;
      }
      configures := configures + 1;
      if !env.configureOk {
        return true;
      }

      status := status.(state := Running);
      listens := listens + 1;
      if !env.listenOk {
        return true;
      }

      var result := ResultOf(env.files);
      collected := Some(env.files);
      status := Finished(status, Outcome(result, env.files.extend, env.now, env.files.jobInfo, env.files.slackChannel));
      pc := Waiting;
      err := false;
    }

    /** PUT /deletion_time: the deadline changes exactly on 204, whatever the state of the pod. */
    method DeletionTimeHandler(req: Request) returns (code: int)
      modifies this
      ensures code == 204 <==> req.verb == "PUT" && req.contentType == "application/json" && req.body.Some?
      ensures code == 405 <==> req.verb != "PUT"
      ensures code == 415 <==> req.verb == "PUT" && req.contentType != "application/json"
      ensures code == 400 <==> req.verb == "PUT" && req.contentType == "application/json" && req.body.None?
      ensures View() == if code == 204 then Next(old(View()), Put(req.body.value)) else old(View())
      ensures status == if code == 204 then old(status).(deletionTime := req.body) else old(status)
    {
      if req.verb != "PUT" {
        return 405;
      }
      if req.contentType != "application/json" {
        return 415;
      }
      if req.body.None? {
        return 400;
      }
      status := status.(deletionTime := req.body);
      code := 204;
    }

    /** GET /status. encodes tells whether the status can be written as JSON. */
    method StatusHandler(req: Request, encodes: bool) returns (code: int, st: Option<Status>)
      ensures code == 405 <==> req.verb != "GET"
      ensures code == 500 <==> req.verb == "GET" && !encodes
      ensures code == 200 <==> req.verb == "GET" && encodes
      ensures st == if code == 200 then Some(View().status) else None
    {
      if req.verb != "GET" {
        return 405, None;
      }
      var served := status;
      if !encodes {
        return 500, None;
      }
      st := Some(served);
      code := 200;
    }
  }
}
