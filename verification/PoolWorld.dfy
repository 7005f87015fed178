/** One runner pool as a timed transition system: the cluster with its pods, the manager process,
    and the Slack agent, interleaved call by call. A visit of the manager is a Read of one pod's
    status followed by one Do for each call that Visit makes of it; everything else may happen in
    between, and a manager may die between any two calls. */
module PoolWorld {
  import opened Base
  import R = RunnerPod
  import opened ManagerPass
  import opened PassProperties
  import opened Extender

  // A live pod: the object in the API server and the program that runs in it.
  datatype Live = Live(obj: KubePod, runner: R.Pod)

  datatype Pdb = Pdb(selects: Labels, minAvailable: int)

  datatype Phase =
    | Idle
    | Listed(snapshot: seq<KubePod>, runners: seq<GithubRunner>)
    | Visiting(ctx: Ctx, items: seq<KubePod>, budget: int, pending: seq<Call>)

  datatype Window = Window(after: Time, upTo: Time)

  // The deadline that the agent computed from a status it read and has not sent yet.
  datatype AgentPut = AgentPut(name: string, deadline: Time)

  // The latest click: for "extend" when it was made, which deadline it read, and the last deadline
  // that the controller set on that pod since.
  datatype Click = NoClick | DeleteClick | ExtendClick(at: Time, read: Option<Time>, overtaken: Option<Time>)

  // What happened so far. start is when the present manager process began, windows its passes; reports
  // counts the notifications sent for each pod, delivered those of them that reached Slack;
  // late holds the pods that a pass read as finished after its own start; headroom and peak are the
  // largest maxRunnerPods - replicas and replicas configured so far; wrapped tells that some budget
  // overflowed; undenied holds the pods that were released by a visit that read denyDisruption as
  // false; pushed is the last deadline that the agent set on the pod of the present visit since its
  // status was read. The last five record the current pass: its list, budget, replies, calls made, and
  // whether a visit panicked.
  datatype History = History(
    start: Time,
    windows: seq<Window>,
    reports: multiset<string>,
    delivered: multiset<string>,
    late: set<string>,
    headroom: int,
    peak: int,
    wrapped: bool,
    undenied: set<string>,
    click: Click,
    pushed: Option<Time>,
    all: seq<KubePod>,
    budget: int,
    seen: seq<Replies>,
    calls: seq<Call>,
    panicked: bool
  )

  datatype World = World(
    clock: Time,
    live: map<string, Live>,
    used: set<string>,
    pdbs: map<string, Pdb>,
    cfg: Config,
    lastCheck: Time,
    phase: Phase,
    agent: Option<AgentPut>,
    hist: History
  )

  datatype Step =
    | Tick(to: Time)
    | Create(obj: KubePod, hasSetup: bool)
    | Vanish(name: string)
    | SetRunning(name: string, running: bool)
    | InPod(name: string, act: R.Step)
    | ClickExtend(name: string)
    | ClickDelete(name: string)
    | SendClick(applied: bool)
    | Configure(cfg: Config)
    | List(snapshot: seq<KubePod>, runners: seq<GithubRunner>)
    | Abandon
    | Begin
    | Read(r: Replies)
    | Do
    | End
    | RestartManager

  predicate ValidConfig(cfg: Config) {
    IsInt32(cfg.replicas) && IsInt32(cfg.maxRunnerPods) && cfg.replicas >= 0 && cfg.maxRunnerPods >= 0
  }

  ghost predicate Init(w: World) {
    && w.clock > ZERO_TIME && w.live == map[] && w.used == {} && w.pdbs == map[]
    && ValidConfig(w.cfg) && w.lastCheck == w.clock && w.phase == Idle && w.agent == None
    && w.hist == History(w.clock, [], multiset{}, multiset{}, {}, w.cfg.maxRunnerPods - w.cfg.replicas, w.cfg.replicas, false, {},
                         NoClick, None, [], 0, [], [], false)
  }

  ghost function Labelled(w: World): set<string> {
    set n | n in w.live && HASH_LABEL in w.live[n].obj.labels
  }

  ghost function Unlabelled(w: World): set<string> {
    set n | n in w.live && HASH_LABEL !in w.live[n].obj.labels
  }

  ghost predicate Listing(items: seq<KubePod>, n: string) {
    exists i :: 0 <= i < |items| && items[i].name == n
  }

  // The list is the present state of the pool, in any order.
  ghost predicate Snapshot(w: World, items: seq<KubePod>) {
    && Distinct(items)
    && (forall i :: 0 <= i < |items| ==> items[i].name in w.live && items[i] == w.live[items[i].name].obj)
    && (forall n :: n in w.live ==> Listing(items, n))
  }

  // The API server takes an update only when it is based on the present object.
  predicate Current(w: World, base: KubePod) {
    base.name in w.live && w.live[base.name].obj == base
  }

  // What the environment is assumed to do.
  ghost predicate CallPossible(w: World, k: Call) {
    match k
    case PutDeadline(n, _, applied) => applied ==> n in w.live
    case Relabel(base, ok) => ok ==> Current(w, base)
    case Unlink(base, ok) => ok ==> Current(w, base)
    case _ => true
  }

  ghost predicate Enabled(w: World, s: Step) {
    match s
    case Tick(to) => to >= w.clock
    case Create(obj, _) =>
      && obj.name !in w.used && obj.name != "" && !obj.running
      && HASH_LABEL in obj.labels && NAME_LABEL !in obj.labels
      && |Labelled(w)| < w.hist.peak
    case Vanish(n) => n in w.live
    case SetRunning(n, _) => n in w.live
    case InPod(n, act) => n in w.live && !act.Put? && (act.Act? ==> act.now == w.clock)
    case ClickExtend(n) => w.agent.None? && n in w.hist.delivered && n in w.live
    case ClickDelete(n) => w.agent.None? && n in w.hist.delivered && n in w.live
    case SendClick(applied) => w.agent.Some? && (applied ==> w.agent.value.name in w.live)
    case Configure(cfg) => ValidConfig(cfg)
    case List(items, _) => w.phase.Idle? && Snapshot(w, items)
    case Abandon => w.phase.Listed?
    case Begin => w.phase.Listed?
    case Read(r) =>
      && w.phase.Visiting? && w.phase.items != [] && w.phase.pending == []
      && (r.status.Some? ==>
            w.phase.items[0].name in w.live && w.live[w.phase.items[0].name].runner.status == r.status.value)
    case Do => w.phase.Visiting? && w.phase.pending != [] && CallPossible(w, w.phase.pending[0])
    case End => w.phase.Visiting? && w.phase.items == [] && w.phase.pending == []
    case RestartManager => true
  }

  function SetObj(w: World, n: string, obj: KubePod): World
    requires n in w.live
  {
    w.(live := w.live[n := w.live[n].(obj := obj)])
  }

  function SetRunner(w: World, n: string, p: R.Pod): World
    requires n in w.live
  {
    w.(live := w.live[n := w.live[n].(runner := p)])
  }

  // The effect of one call of the manager on the cluster.
  ghost function Effect(w: World, k: Call): World
    requires CallPossible(w, k)
  {
    match k
    case Post(n, _, _, _, _, delivered) =>
      w.(hist := w.hist.(reports := w.hist.reports + multiset{n},
                         delivered := if delivered then w.hist.delivered + multiset{n} else w.hist.delivered))
    case Delete(n, applied) => if applied then w.(live := w.live - {n}) else w
    case PutDeadline(n, t, applied) => if applied then SetRunner(w, n, R.Next(w.live[n].runner, R.Put(t))) else w
    case Protect(n, ok) => if ok then w.(pdbs := w.pdbs[n := Pdb(map[NAME_LABEL := n], 1)]) else w
    case Relabel(base, ok) => if ok then SetObj(w, base.name, Named(base)) else w
    case Unlink(base, ok) => if ok then SetObj(w, base.name, Unlinked(base)) else w
  }

  // The pod was read as finished, after the pass began.
  predicate FinishedLate(c: Ctx, po: KubePod, r: Replies) {
    po.running && r.status.Some? && r.status.value.state == R.Debugging && FinishTime(r.status.value) > c.now
  }

  ghost function AfterRead(w: World, r: Replies): World
    requires w.phase.Visiting? && w.phase.items != []
  {
    var po := w.phase.items[0];
    var v := Visit(w.phase.ctx, w.phase.budget, po, r);
    w.(phase := Visiting(w.phase.ctx, w.phase.items[1..], v.budget, v.calls),
       hist := w.hist.(late := if FinishedLate(w.phase.ctx, po, r) then w.hist.late + {po.name} else w.hist.late,
                       pushed := None,
                       seen := w.hist.seen + [r],
                       panicked := w.hist.panicked || v.panicked))
  }

  // The reply of the present visit said that disruption is denied.
  predicate Denying(h: History) {
    h.seen != [] && h.seen[|h.seen| - 1].deny
  }

  function Undenied(h: History, k: Call): set<string> {
    if k.Unlink? && k.ok && !Denying(h) then h.undenied + {k.base.name} else h.undenied
  }

  function Overtaken(w: World, k: Call): Click {
    if w.hist.click.ExtendClick? && w.agent.Some? && k.PutDeadline? && k.applied && k.name == w.agent.value.name
    then w.hist.click.(overtaken := Some(k.deadline))
    else w.hist.click
  }

  function CallName(k: Call): string {
    match k
    case Post(n, _, _, _, _, _) => n
    case Delete(n, _) => n
    case PutDeadline(n, _, _) => n
    case Protect(n, _) => n
    case Relabel(base, _) => base.name
    case Unlink(base, _) => base.name
  }

  function Pushed(w: World): Option<Time>
    requires w.agent.Some?
  {
    if w.phase.Visiting? && w.phase.pending != [] && CallName(w.phase.pending[0]) == w.agent.value.name
    then Some(w.agent.value.deadline)
    else w.hist.pushed
  }

  ghost function AfterDo(w: World): World
    requires w.phase.Visiting? && w.phase.pending != [] && CallPossible(w, w.phase.pending[0])
  {
    var k := w.phase.pending[0];
    var v := Effect(w, k);
    v.(phase := w.phase.(pending := w.phase.pending[1..]),
       hist := v.hist.(calls := w.hist.calls + [k], undenied := Undenied(w.hist, k), click := Overtaken(w, k)))
  }

  ghost function AfterBegin(w: World): World
    requires w.phase.Listed?
  {
    var items := w.phase.snapshot;
    var unlabelled := CountUnlabelled(items);
    var b := Budget(w.cfg, unlabelled);
    var ctx := Ctx(w.clock, w.lastCheck, w.cfg, w.phase.runners);
    w.(lastCheck := w.clock,
       phase := Visiting(ctx, items, b, []),
       hist := w.hist.(windows := w.hist.windows + [Window(w.lastCheck, w.clock)],
                       wrapped := w.hist.wrapped || !IsInt32(w.cfg.maxRunnerPods - w.cfg.replicas - unlabelled),
                       all := items, budget := b, seen := [], calls := []))
  }

  ghost function Apply(w: World, s: Step): World
    requires Enabled(w, s)
  {
    match s
    case Tick(to) => w.(clock := to)
    case Create(obj, hasSetup) =>
      w.(live := w.live[obj.name := Live(obj.(created := w.clock), R.Fresh(hasSetup))], used := w.used + {obj.name})
    case Vanish(n) => w.(live := w.live - {n})
    case SetRunning(n, running) => SetObj(w, n, w.live[n].obj.(running := running))
    case InPod(n, act) => SetRunner(w, n, R.Next(w.live[n].runner, act))
    case ClickExtend(n) =>
      var read := w.live[n].runner.status.deletionTime;
      w.(agent := Some(AgentPut(n, Extended(read, w.clock, w.clock))),
         hist := w.hist.(click := ExtendClick(w.clock, read, None)))
    case ClickDelete(n) => w.(agent := Some(AgentPut(n, ZERO_TIME)), hist := w.hist.(click := DeleteClick))
    case SendClick(applied) =>
      var put := w.agent.value;
      var sent := w.(agent := None, hist := if applied then w.hist.(pushed := Pushed(w)) else w.hist);
      if applied then SetRunner(sent, put.name, R.Next(w.live[put.name].runner, R.Put(put.deadline))) else sent
    case Configure(cfg) =>
      w.(cfg := cfg, hist := w.hist.(headroom := Max(w.hist.headroom, cfg.maxRunnerPods - cfg.replicas),
                                     peak := Max(w.hist.peak, cfg.replicas)))
    case List(items, runners) => w.(phase := Listed(items, runners))
    case Abandon => w.(phase := Idle)
    case Begin => AfterBegin(w)
    case Read(r) => AfterRead(w, r)
    case Do => AfterDo(w)
    case End => w.(phase := Idle)
    case RestartManager => w.(phase := Idle, lastCheck := w.clock, hist := w.hist.(start := w.clock, windows := []))
  }

  // Runs.
  ghost predicate Possible(w: World, steps: seq<Step>)
    decreases |steps|, 0
  {
    steps == [] ||
    (var n := |steps| - 1;
     Possible(w, steps[..n]) && Enabled(After(w, steps[..n]), steps[n]))
  }

  ghost function After(w: World, steps: seq<Step>): World
    requires Possible(w, steps)
    decreases |steps|, 1
  {
    if steps == [] then w
    else
      var n := |steps| - 1;
      Apply(After(w, steps[..n]), steps[n])
  }

  /** No manager dies, over these steps, while a call of this kind is due. */
  ghost predicate Carries(w: World, steps: seq<Step>, due: Phase -> bool)
    requires Possible(w, steps)
  {
    steps == [] ||
    (var n := |steps| - 1;
     Carries(w, steps[..n], due) && !(steps[n].RestartManager? && due(After(w, steps[..n]).phase)))
  }

  // No pod has finished in the future.
  predicate FinishedBy(p: R.Pod, t: Time) {
    && (p.status.finishedAt.Some? ==> p.status.finishedAt.value <= t)
    && (p.pc.Publish? ==> p.pc.outcome.finishedAt <= t)
  }

  ghost predicate PodSound(n: string, l: Live, t: Time) {
    l.obj.name == n && R.Valid(l.runner) && FinishedBy(l.runner, t)
  }

  ghost predicate LiveSound(live: map<string, Live>, used: set<string>, t: Time) {
    forall n :: n in live ==> n in used && PodSound(n, live[n], t)
  }

  ghost predicate ListSound(items: seq<KubePod>, used: set<string>) {
    Distinct(items) && forall i :: 0 <= i < |items| ==> items[i].name in used
  }

  ghost predicate PendingCallSound(k: Call, n: string, items: seq<KubePod>, used: set<string>) {
    n in used && CallName(k) == n && !Listing(items, n)
  }

  // The pending calls are about one pod, which the pass will not visit again.
  ghost predicate PendingSound(pending: seq<Call>, items: seq<KubePod>, used: set<string>) {
    forall i :: 0 <= i < |pending| ==> PendingCallSound(pending[i], CallName(pending[0]), items, used)
  }

  ghost predicate PhaseSound(phase: Phase, used: set<string>, lastCheck: Time) {
    match phase
    case Idle => true
    case Listed(items, _) => ListSound(items, used)
    case Visiting(ctx, items, _, pending) =>
      && ctx.now == lastCheck && ctx.last <= ctx.now && ValidConfig(ctx.cfg)
      && ListSound(items, used) && PendingSound(pending, items, used)
  }

  /** What holds of every reachable world whatever the configuration. */
  ghost predicate Sound(w: World) {
    && w.clock > ZERO_TIME && ValidConfig(w.cfg)
    && "" !in w.used
    && w.hist.start <= w.lastCheck <= w.clock
    && (forall n :: n in w.hist.reports ==> n in w.used)
    && w.hist.delivered <= w.hist.reports
    && (w.agent.Some? ==> w.agent.value.name in w.used)
    && LiveSound(w.live, w.used, w.clock)
    && PhaseSound(w.phase, w.used, w.lastCheck)
  }

  lemma InitIsSound(w: World)
    requires Init(w)
    ensures Sound(w)
  {
  }

  lemma RunnerKeepsLiveSound(w: World, n: string, act: R.Step)
    requires LiveSound(w.live, w.used, w.clock) && n in w.live && (act.Act? ==> act.now == w.clock)
    ensures LiveSound(SetRunner(w, n, R.Next(w.live[n].runner, act)).live, w.used, w.clock)
  {
    assert PodSound(n, w.live[n], w.clock);
    R.NextKeepsValid(w.live[n].runner, act);
    assert FinishedBy(R.Next(w.live[n].runner, act), w.clock);
  }

  lemma EffectKeepsBooks(w: World, k: Call)
    requires CallPossible(w, k)
    ensures var e := Effect(w, k);
            && e.cfg == w.cfg && e.phase == w.phase
            && e.hist == w.hist.(reports := e.hist.reports, delivered := e.hist.delivered)
  {
    hide R.Next;
  }

  lemma EffectKeepsLiveSound(w: World, k: Call)
    requires LiveSound(w.live, w.used, w.clock) && CallPossible(w, k)
    ensures LiveSound(Effect(w, k).live, w.used, w.clock)
  {
    hide R.Valid, R.Next, FinishedBy;
    match k {
      case PutDeadline(n, t, applied) =>
        if applied {
          RunnerKeepsLiveSound(w, n, R.Put(t));
        }
      case Relabel(base, ok) =>
        assert ok ==> PodSound(base.name, w.live[base.name], w.clock);
      case Unlink(base, ok) =>
        assert ok ==> PodSound(base.name, w.live[base.name], w.clock);
      case _ =>
    }
  }

  lemma ClockKeepsLiveSound(live: map<string, Live>, used: set<string>, t: Time, later: Time)
    requires LiveSound(live, used, t) && t <= later
    ensures LiveSound(live, used, later)
  {
    hide R.Valid;
    forall n | n in live
      ensures n in used && PodSound(n, live[n], later)
    {
      assert PodSound(n, live[n], t);
    }
  }

  lemma FreshIsSound(obj: KubePod, hasSetup: bool, t: Time)
    ensures PodSound(obj.name, Live(obj.(created := t), R.Fresh(hasSetup)), t)
  {
  }

  lemma CreateKeepsLiveSound(w: World, obj: KubePod, hasSetup: bool)
    requires LiveSound(w.live, w.used, w.clock) && Enabled(w, Create(obj, hasSetup))
    ensures var v := Apply(w, Create(obj, hasSetup)); LiveSound(v.live, v.used, v.clock)
  {
    hide R.Valid;
    var v := Apply(w, Create(obj, hasSetup));
    FreshIsSound(obj, hasSetup, w.clock);
    forall n | n in v.live
      ensures n in v.used && PodSound(n, v.live[n], v.clock)
    {
      assert n != obj.name ==> n in w.live && PodSound(n, w.live[n], w.clock);
    }
  }

  lemma PendingMonotone(pending: seq<Call>, items: seq<KubePod>, used: set<string>, more: set<string>)
    requires PendingSound(pending, items, used) && used <= more
    ensures PendingSound(pending, items, more)
  {
    forall i | 0 <= i < |pending|
      ensures PendingCallSound(pending[i], CallName(pending[0]), items, more)
    {
      assert PendingCallSound(pending[i], CallName(pending[0]), items, used);
    }
  }

  lemma CreateKeepsPhaseSound(w: World, obj: KubePod)
    requires PhaseSound(w.phase, w.used, w.lastCheck)
    ensures PhaseSound(w.phase, w.used + {obj.name}, w.lastCheck)
  {
    hide PendingSound;
    if w.phase.Visiting? {
      PendingMonotone(w.phase.pending, w.phase.items, w.used, w.used + {obj.name});
    }
  }

  lemma AdoptNamesItsPod(b: int, po: KubePod, r: Replies)
    ensures forall i :: 0 <= i < |Adopt(b, po, r).calls| ==> CallName(Adopt(b, po, r).calls[i]) == po.name
  {
  }

  lemma VisitNamesItsPod(c: Ctx, b: int, po: KubePod, r: Replies)
    ensures var calls := Visit(c, b, po, r).calls;
            forall i :: 0 <= i < |calls| ==> CallName(calls[i]) == po.name
  {
    hide Adopt, MustDelete, InUse, Panics, Notifies;
    AdoptNamesItsPod(b, po, r);
  }

  lemma ReadKeepsPhaseSound(w: World, r: Replies)
    requires Enabled(w, Read(r)) && PhaseSound(w.phase, w.used, w.lastCheck)
    ensures PhaseSound(AfterRead(w, r).phase, w.used, w.lastCheck)
  {
    hide Visit;
    var po := w.phase.items[0];
    var items := w.phase.items[1..];
    VisitNamesItsPod(w.phase.ctx, w.phase.budget, po, r);
    var calls := Visit(w.phase.ctx, w.phase.budget, po, r).calls;
    assert forall i :: 0 <= i < |items| ==> items[i] == w.phase.items[i + 1];
    forall i | 0 <= i < |calls|
      ensures PendingCallSound(calls[i], CallName(calls[0]), items, w.used)
    {
      assert CallName(calls[i]) == po.name;
    }
  }

  lemma PendingTail(pending: seq<Call>, items: seq<KubePod>, used: set<string>)
    requires PendingSound(pending, items, used) && pending != []
    ensures PendingSound(pending[1..], items, used)
    ensures CallName(pending[0]) in used && !Listing(items, CallName(pending[0]))
  {
    assert PendingCallSound(pending[0], CallName(pending[0]), items, used);
    forall i | 0 <= i < |pending[1..]|
      ensures PendingCallSound(pending[1..][i], CallName(pending[1..][0]), items, used)
    {
      assert PendingCallSound(pending[1], CallName(pending[0]), items, used);
      assert PendingCallSound(pending[i + 1], CallName(pending[0]), items, used);
    }
  }

  lemma RemovalKeepsLiveSound(live: map<string, Live>, used: set<string>, t: Time, n: string)
    requires LiveSound(live, used, t)
    ensures LiveSound(live - {n}, used, t)
  {
  }

  lemma RunningKeepsLiveSound(w: World, n: string, running: bool)
    requires LiveSound(w.live, w.used, w.clock) && n in w.live
    ensures LiveSound(SetObj(w, n, w.live[n].obj.(running := running)).live, w.used, w.clock)
  {
    hide R.Valid, FinishedBy;
    assert PodSound(n, w.live[n], w.clock);
  }

  lemma AfterBeginKeepsCluster(w: World)
    requires w.phase.Listed?
    ensures var v := AfterBegin(w); v.live == w.live && v.used == w.used && v.clock == w.clock && v.pdbs == w.pdbs
  {
  }

  lemma AfterReadKeepsCluster(w: World, r: Replies)
    requires w.phase.Visiting? && w.phase.items != []
    ensures var v := AfterRead(w, r); v.live == w.live && v.used == w.used && v.clock == w.clock && v.pdbs == w.pdbs
  {
    hide Visit;
  }

  lemma StepKeepsLiveSound(w: World, s: Step)
    requires Sound(w) && Enabled(w, s)
    ensures var v := Apply(w, s); LiveSound(v.live, v.used, v.clock)
  {
    hide LiveSound, PhaseSound, Snapshot, R.Next, AfterRead, AfterBegin;
    match s {
      case Tick(to) => ClockKeepsLiveSound(w.live, w.used, w.clock, to);
      case Create(obj, hasSetup) => CreateKeepsLiveSound(w, obj, hasSetup);
      case Vanish(n) => RemovalKeepsLiveSound(w.live, w.used, w.clock, n);
      case SetRunning(n, running) => RunningKeepsLiveSound(w, n, running);
      case InPod(n, act) => RunnerKeepsLiveSound(w, n, act);
      case SendClick(applied) =>
        if applied {
          RunnerKeepsLiveSound(w.(agent := None), w.agent.value.name, R.Put(w.agent.value.deadline));
        }
      case Do => EffectKeepsLiveSound(w, w.phase.pending[0]);
      case Begin => AfterBeginKeepsCluster(w);
      case Read(r) => AfterReadKeepsCluster(w, r);
      case _ =>
    }
  }

  lemma NothingPending(items: seq<KubePod>, used: set<string>)
    ensures PendingSound([], items, used)
  {
  }

  lemma SnapshotIsSound(w: World, items: seq<KubePod>)
    requires LiveSound(w.live, w.used, w.clock) && Snapshot(w, items)
    ensures ListSound(items, w.used)
  {
    hide PodSound;
  }

  lemma StepKeepsPhaseSound(w: World, s: Step)
    requires Sound(w) && Enabled(w, s)
    ensures var v := Apply(w, s); PhaseSound(v.phase, v.used, v.lastCheck)
  {
    hide LiveSound, ListSound, PendingSound, Snapshot, R.Next, Visit;
    match s {
      case Create(obj, hasSetup) => CreateKeepsPhaseSound(w, obj);
      case List(items, _) => SnapshotIsSound(w, items);
      case Begin => NothingPending(w.phase.snapshot, w.used);
      case Read(r) => ReadKeepsPhaseSound(w, r);
      case Do => PendingTail(w.phase.pending, w.phase.items, w.used);
      case _ =>
    }
  }

  lemma DoReportsUsed(w: World)
    requires Sound(w) && Enabled(w, Do)
    ensures var v := AfterDo(w); (forall n :: n in v.hist.reports ==> n in v.used) && v.hist.delivered <= v.hist.reports
  {
    hide LiveSound, ListSound, PendingSound, R.Next;
    PendingTail(w.phase.pending, w.phase.items, w.used);
  }

  lemma AfterReadKeepsReports(w: World, r: Replies)
    requires w.phase.Visiting? && w.phase.items != []
    ensures var v := AfterRead(w, r);
            v.hist.reports == w.hist.reports && v.hist.delivered == w.hist.delivered && v.used == w.used
  {
    hide Visit;
  }

  lemma ReportsUsed(w: World, s: Step)
    requires Sound(w) && Enabled(w, s)
    ensures var v := Apply(w, s); (forall n :: n in v.hist.reports ==> n in v.used) && v.hist.delivered <= v.hist.reports
  {
    hide LiveSound, PhaseSound, Snapshot, R.Next, AfterRead, AfterDo, CountUnlabelled, Budget, Extended;
    match s {
      case Read(r) => AfterReadKeepsReports(w, r);
      case Do => DoReportsUsed(w);
      case _ =>
    }
  }

  // The clauses of Sound that are neither about pods nor about the phase.
  ghost predicate BooksSound(w: World) {
    && w.clock > ZERO_TIME && ValidConfig(w.cfg)
    && "" !in w.used
    && w.hist.start <= w.lastCheck <= w.clock
    && (w.agent.Some? ==> w.agent.value.name in w.used)
  }

  lemma AfterReadKeepsBooks(w: World, r: Replies)
    requires w.phase.Visiting? && w.phase.items != []
    ensures var v := AfterRead(w, r);
            && v.clock == w.clock && v.cfg == w.cfg && v.used == w.used && v.lastCheck == w.lastCheck
            && v.agent == w.agent && v.hist.start == w.hist.start
  {
    hide Visit;
  }

  lemma AfterDoKeepsBooks(w: World)
    requires w.phase.Visiting? && w.phase.pending != [] && CallPossible(w, w.phase.pending[0])
    ensures var v := AfterDo(w);
            && v.clock == w.clock && v.cfg == w.cfg && v.used == w.used && v.lastCheck == w.lastCheck
            && v.agent == w.agent && v.hist.start == w.hist.start
  {
    hide R.Next;
  }

  lemma StepKeepsBooks(w: World, s: Step)
    requires BooksSound(w) && Enabled(w, s) && (forall n :: n in w.live ==> n in w.used)
    ensures BooksSound(Apply(w, s))
  {
    hide Snapshot, R.Next, Visit, CountUnlabelled, Budget, Effect, AfterRead, AfterDo, ValidConfig, Extended;
    match s {
      case Read(r) => AfterReadKeepsBooks(w, r);
      case Do => AfterDoKeepsBooks(w);
      case _ =>
    }
  }

  lemma SoundParts(w: World)
    requires Sound(w)
    ensures BooksSound(w) && forall n :: n in w.live ==> n in w.used
  {
    hide PodSound, PhaseSound;
  }

  lemma StepKeepsSound(w: World, s: Step)
    requires Sound(w) && Enabled(w, s)
    ensures Sound(Apply(w, s))
  {
    hide LiveSound, PhaseSound, Apply, Enabled;
    SoundParts(w);
    StepKeepsBooks(w, s);
    StepKeepsLiveSound(w, s);
    StepKeepsPhaseSound(w, s);
    ReportsUsed(w, s);
  }

  lemma {:induction false} RunKeepsSound(w: World, steps: seq<Step>)
    requires Sound(w) && Possible(w, steps)
    ensures Sound(After(w, steps))
  {
    hide Sound, Apply, Enabled;
    if steps != [] {
      var n := |steps| - 1;
      RunKeepsSound(w, steps[..n]);
      StepKeepsSound(After(w, steps[..n]), steps[n]);
    }
  }
}
