/** One periodic pass of the runner manager over the pods of its pool: what it asks the cluster,
    the pods and the Slack agent to do, given what they answer. */
module ManagerPass {
  import opened Base
  import opened RunnerPod

  const HASH_LABEL := "pod-template-hash"
  const NAME_LABEL := "meows.cybozu.com/runner-pod-name"

  lemma LabelKeysDiffer()
    ensures HASH_LABEL != NAME_LABEL
  {
    assert |HASH_LABEL| != |NAME_LABEL|;
  }

  type Labels = map<string, string>

  // A pod as the API server lists it.
  datatype KubePod = KubePod(name: string, created: Time, running: bool, labels: Labels)

  // A runner as GitHub lists it.
  datatype GithubRunner = GithubRunner(id: int, name: string, online: bool, busy: bool, labels: seq<string>)

  datatype Config = Config(
    replicas: int,
    maxRunnerPods: int,
    needNotification: bool,
    slackChannel: string,
    extendDuration: Duration,
    recreateDeadline: Duration
  )

  // What a pass fixes before it looks at the first pod.
  datatype Ctx = Ctx(now: Time, last: Time, cfg: Config, runners: seq<GithubRunner>)

  // What one visit gets back. deny is the denyDisruption flag as that visit read it; posted, deleted
  // and put say whether the call took effect, which the pass itself never branches on.
  datatype Replies = Replies(
    status: Option<Status>,
    posted: bool,
    deleted: bool,
    put: bool,
    pdb: bool,
    relabel: bool,
    unlink: bool,
    deny: bool
  )

  // The calls a visit makes. Relabel and Unlink are updates based on the object base.
  datatype Call =
    | Post(name: string, channel: string, result: JobResult, extendable: bool, jobInfo: Option<string>, delivered: bool)
    | Delete(name: string, applied: bool)
    | PutDeadline(name: string, deadline: Time, applied: bool)
    | Protect(name: string, ok: bool)
    | Relabel(base: KubePod, ok: bool)
    | Unlink(base: KubePod, ok: bool)

  // Reading a missing key of a Go map yields the empty string.
  function Get(labels: Labels, key: string): string {
    if key in labels then labels[key] else ""
  }

  /** The first runner of that name decides. */
  ghost predicate BusyIn(runners: seq<GithubRunner>, name: string) {
    exists i :: 0 <= i < |runners| && runners[i].name == name && runners[i].busy
                && forall j :: 0 <= j < i ==> runners[j].name != name
  }

  method RunnerBusy(runners: seq<GithubRunner>, name: string) returns (busy: bool)
    ensures busy <==> BusyIn(runners, name)
  {
    for i := 0 to |runners|
      invariant forall j :: 0 <= j < i ==> runners[j].name != name
    {
      if runners[i].name == name {
        return runners[i].busy;
      }
    }
    return false;
  }

  predicate NeedExtend(c: Ctx, st: Status) {
    st.extend == Some(true) && c.cfg.extendDuration != 0
  }

  function FinishTime(st: Status): Time {
    if st.finishedAt.Some? then st.finishedAt.value else ZERO_TIME
  }

  /** The status makes the pass dereference a nil finish time. */
  predicate Panics(c: Ctx, st: Status) {
    st.state == Debugging && st.finishedAt.None?
    && (c.cfg.needNotification || (st.deletionTime.None? && NeedExtend(c, st)))
  }

  /** The instant after which a finished pod is due: a deadline it was given, else the configured
      extension when the job asked for one, else none at all. */
  function Deadline(c: Ctx, st: Status): Option<Time> {
    if st.deletionTime.Some? then st.deletionTime
    else if NeedExtend(c, st) then Some(FinishTime(st) + c.cfg.extendDuration)
    else None
  }

  /** The deletion rule. */
  ghost predicate MustDelete(c: Ctx, po: KubePod, st: Status) {
    match st.state
    case Stale => true
    case Debugging => Deadline(c, st).Some? ==> c.now > Deadline(c, st).value
    case _ => c.now > po.created + c.cfg.recreateDeadline && !BusyIn(c.runners, po.name)
  }

  predicate Notifies(c: Ctx, st: Status) {
    st.state == Debugging && c.cfg.needNotification && FinishTime(st) > c.last
  }

  function Report(c: Ctx, po: KubePod, st: Status, r: Replies): seq<Call> {
    if !Notifies(c, st) then []
    else [Post(po.name, if st.slackChannel != "" then st.slackChannel else c.cfg.slackChannel, st.result,
               NeedExtend(c, st), st.jobInfo, r.posted)]
  }

  function SetDeadline(c: Ctx, po: KubePod, st: Status, r: Replies): seq<Call> {
    if st.state == Debugging && st.deletionTime.None? && st.finishedAt.Some? && FinishTime(st) > c.last
    then [PutDeadline(po.name, FinishTime(st) + c.cfg.extendDuration, r.put)]
    else []
  }

  ghost predicate InUse(c: Ctx, po: KubePod, st: Status) {
    st.state == Debugging || BusyIn(c.runners, po.name)
  }

  datatype Visited = Visited(pod: KubePod, calls: seq<Call>, budget: int, panicked: bool)

  function Named(po: KubePod): KubePod {
    po.(labels := po.labels[NAME_LABEL := po.name])
  }

  function Unlinked(po: KubePod): KubePod {
    po.(labels := po.labels - {HASH_LABEL})
  }

  predicate NeedProtection(po: KubePod, r: Replies) {
    r.deny && Get(po.labels, NAME_LABEL) != po.name
  }

  /** Protecting and unlinking a pod in use. Each update works on the object the previous one left. */
  function Adopt(budget: int, po: KubePod, r: Replies): Visited {
    var need := NeedProtection(po, r);
    if need && !r.pdb then Visited(po, [Protect(po.name, false)], budget, false)
    else
      var named := if need then Named(po) else po;
      var calls := if need then [Protect(po.name, true), Relabel(po, r.relabel)] else [];
      if (need && !r.relabel) || budget <= 0 || HASH_LABEL !in named.labels then Visited(named, calls, budget, false)
      else Visited(Unlinked(named), calls + [Unlink(named, r.unlink)], if r.unlink then budget - 1 else budget, false)
  }

  ghost function Visit(c: Ctx, budget: int, po: KubePod, r: Replies): Visited {
    if !po.running || r.status.None? then Visited(po, [], budget, false)
    else
      var st := r.status.value;
      if Panics(c, st) then Visited(po, [], budget, true)
      else if MustDelete(c, po, st) then
        Visited(po, (if st.state == Stale then [] else Report(c, po, st, r)) + [Delete(po.name, r.deleted)], budget, false)
      else
        var v := if InUse(c, po, st) then Adopt(budget, po, r) else Visited(po, [], budget, false);
        v.(calls := Report(c, po, st, r) + SetDeadline(c, po, st, r) + v.calls)
  }

  datatype PassResult = PassResult(items: seq<KubePod>, calls: seq<Call>, budget: int, panicked: bool)

  ghost function Pass(c: Ctx, budget: int, items: seq<KubePod>, replies: seq<Replies>): (p: PassResult)
    requires |items| == |replies|
    ensures |p.items| == |items|
  {
    if items == [] then PassResult([], [], budget, false)
    else
      var n := |items| - 1;
      var p := Pass(c, budget, items[..n], replies[..n]);
      if p.panicked then p.(items := p.items + [items[n]])
      else
        var v := Visit(c, p.budget, items[n], replies[n]);
        PassResult(p.items + [v.pod], p.calls + v.calls, v.budget, v.panicked)
  }

  function CountUnlabelled(items: seq<KubePod>): (n: nat)
    ensures n <= |items|
  {
    if items == [] then 0
    else CountUnlabelled(items[..|items| - 1]) + (if HASH_LABEL in items[|items| - 1].labels then 0 else 1)
  }

  /** The number of pods a pass may still unlink, in the int32 arithmetic of the controller. */
  function Budget(cfg: Config, unlabelled: int): (b: int)
    ensures IsInt32(cfg.maxRunnerPods - cfg.replicas - unlabelled) <==>
              b == cfg.maxRunnerPods - cfg.replicas - unlabelled
  {
    WrapOnce(cfg.maxRunnerPods - cfg.replicas, unlabelled);
    Wrap32(Wrap32(cfg.maxRunnerPods - cfg.replicas) - unlabelled)
  }

  lemma PassOfNothing(c: Ctx, budget: int, items: seq<KubePod>, replies: seq<Replies>)
    requires |items| == |replies| == 0
    ensures Pass(c, budget, items, replies) == PassResult([], [], budget, false)
  {
  }

  lemma PassStep(c: Ctx, budget: int, items: seq<KubePod>, replies: seq<Replies>, i: nat)
    requires |items| == |replies| && i < |items|
    ensures var p := Pass(c, budget, items[..i], replies[..i]);
            var q := Pass(c, budget, items[..i + 1], replies[..i + 1]);
            var v := Visit(c, p.budget, items[i], replies[i]);
            !p.panicked ==> q == PassResult(p.items + [v.pod], p.calls + v.calls, v.budget, v.panicked)
  {
    assert items[..i + 1][..i] == items[..i];
    assert replies[..i + 1][..i] == replies[..i];
  }

  lemma {:induction false} PanicEndsPass(c: Ctx, budget: int, items: seq<KubePod>, replies: seq<Replies>, i: nat)
    requires |items| == |replies| && i <= |items|
    requires Pass(c, budget, items[..i], replies[..i]).panicked
    ensures var p := Pass(c, budget, items[..i], replies[..i]);
            Pass(c, budget, items, replies) == p.(items := p.items + items[i..])
    decreases |items| - i
  {
    hide Visit;
    var p := Pass(c, budget, items[..i], replies[..i]);
    if i == |items| {
      assert items[..i] == items && replies[..i] == replies;
      assert p.items + items[i..] == p.items;
    } else {
      assert items[..i + 1][..i] == items[..i];
      assert replies[..i + 1][..i] == replies[..i];
      PanicEndsPass(c, budget, items, replies, i + 1);
      assert p.items + items[i..] == p.items + [items[i]] + items[i + 1..];
    }
  }

  method CountUnlabelledPods(items: array<KubePod>) returns (n: nat)
    ensures n == CountUnlabelled(items[..])
  {
    n := 0;
    for i := 0 to items.Length
      invariant n == CountUnlabelled(items[..i])
    {
      assert items[..i + 1][..i] == items[..i];
      if HASH_LABEL !in items[i].labels {
        n := n + 1;
      }
    }
    assert items[..items.Length] == items[..];
  }

  /** The last part of the loop body, for a pod whose runner has a job: protect it, then release it
      from its ReplicaSet. */
  method AdoptPod(budget: int, pod: KubePod, r: Replies) returns (po: KubePod, calls: seq<Call>, left: int)
    ensures Visited(po, calls, left, false) == Adopt(budget, pod, r)
  {
    po, calls, left := pod, [], budget;
    if r.deny {
      if Get(po.labels, NAME_LABEL) != po.name {
        calls := calls + [Protect(po.name, r.pdb)];
        if !r.pdb {
          return;
        }
        calls := calls + [Relabel(po, r.relabel)];
        po := po.(labels := po.labels[NAME_LABEL := po.name]);
        if !r.relabel {
          return;
        }
      }
    }
    if budget <= 0 {
      return;
    }
    if HASH_LABEL !in po.labels {
      return;
    }
    calls := calls + [Unlink(po, r.unlink)];
    po := po.(labels := po.labels - {HASH_LABEL});
    if !r.unlink {
      return;
    }
    left := budget - 1;
  }

  /** The body of the pass loop: the calls it makes and the labels it leaves on its pod. */
  method VisitPod(c: Ctx, budget: int, pod: KubePod, r: Replies)
    returns (po: KubePod, calls: seq<Call>, left: int, panicked: bool)
    ensures Visited(po, calls, left, panicked) == Visit(c, budget, pod, r)
  {
    po, calls, left, panicked := pod, [], budget, false;
    if !po.running || r.status.None? {
      return;
    }
    var st := r.status.value;

    if st.state == Stale {
      calls := [Delete(po.name, r.deleted)];
      return;
    }

    if st.state == Debugging {
      var needExtend := st.extend.Some? && st.extend.value && c.cfg.extendDuration != 0;
      if c.cfg.needNotification {
        if st.finishedAt.None? {
          panicked := true;
          return;
        }
        if st.finishedAt.value > c.last {
          var ch := c.cfg.slackChannel;
          if st.slackChannel != "" {
            ch := st.slackChannel;
          }
          calls := [Post(po.name, ch, st.result, needExtend, st.jobInfo, r.posted)];
        }
      }
      assert !Panics(c, st) ==> calls == Report(c, po, st, r);
      var needDelete;
      if st.deletionTime.Some? {
        needDelete := c.now > st.deletionTime.value;
      } else if needExtend {
        if st.finishedAt.None? {
          panicked := true;
          return;
        }
        needDelete := c.now > st.finishedAt.value + c.cfg.extendDuration;
      } else {
        needDelete := true;
      }
      assert needDelete == MustDelete(c, po, st);
      if needDelete {
        calls := calls + [Delete(po.name, r.deleted)];
        return;
      }
      if st.deletionTime.None? && st.finishedAt.Some? && st.finishedAt.value > c.last {
        calls := calls + [PutDeadline(po.name, st.finishedAt.value + c.cfg.extendDuration, r.put)];
      }
    }
    assert calls == Report(c, po, st, r) + SetDeadline(c, po, st, r);

    var busy := RunnerBusy(c.runners, po.name);
    var podRecreateTime := po.created + c.cfg.recreateDeadline;
    if podRecreateTime < c.now && !(busy || st.state == Debugging) {
      calls := calls + [Delete(po.name, r.deleted)];
      return;
    }

    busy := RunnerBusy(c.runners, po.name);
    if busy || st.state == Debugging {
      var more;
      po, more, left := AdoptPod(budget, po, r);
      calls := calls + more;
    }
  }

  // Editing one element of a list whose rest is as it was.
  lemma EditedAt(before: seq<KubePod>, after: seq<KubePod>, was: seq<KubePod>, i: nat, po: KubePod)
    requires i < |before| == |was| && after == before[i := po] && before[i..] == was[i..]
    ensures after[..i + 1] == before[..i] + [po] && after[i + 1..] == was[i + 1..]
  {
    assert before[i..][1..] == before[i + 1..] && was[i..][1..] == was[i + 1..];
  }

  const DEFAULT_AGENT := "slack-agent.meows.svc"

  function AgentName(serviceName: string): string {
    if serviceName == "" then DEFAULT_AGENT else serviceName
  }

  /** The per-pool process, as far as a pass goes. calls is what it has sent out so far. */
  class ManageProcess {
    var config: Config
    // The service name of the Slack agent that the client's URL was made from.
    var agent: string
    var lastCheckTime: Time
    var calls: seq<Call>

    constructor (config: Config, serviceName: string, now: Time)
      ensures this.config == config && agent == AgentName(serviceName) && lastCheckTime == now && calls == []
    {
      this.config := config;
      agent := AgentName(serviceName);
      lastCheckTime := now;
      calls := [];
    }

    /** New settings. The URL of another agent may fail to parse: the settings are then in force all the
        same, the old agent stays, and a later update with the same name tries again. */
    method Update(config: Config, serviceName: string, parses: bool) returns (ok: bool)
      modifies this`config, this`agent
      ensures this.config == config
      ensures ok <==> agent == AgentName(serviceName)
      ensures !ok ==> !parses && agent == old(agent)
      ensures old(agent) == AgentName(serviceName) || parses ==> ok
    {
      this.config := config;
      var agentName := DEFAULT_AGENT;
      if serviceName != "" {
        agentName := serviceName;
      }
      if agent != agentName {
        if !parses {
          return false;
        }
        agent := agentName;
      }
      return true;
    }

    /** The loop of the pass. */
    method VisitPods(c: Ctx, budget: int, items: array<KubePod>, replies: seq<Replies>) returns (panicked: bool)
      requires |replies| == items.Length
      modifies this`calls, items
      ensures var p := Pass(c, budget, old(items[..]), replies);
              items[..] == p.items && calls == old(calls) + p.calls && panicked == p.panicked
    {
      hide Visit, Pass;
      ghost var was := items[..];
      ghost var sent := calls;
      var numRemovablePods := budget;

      ghost var p := Pass(c, budget, was[..0], replies[..0]);
      PassOfNothing(c, budget, was[..0], replies[..0]);
      for i := 0 to items.Length
        invariant items[i..] == was[i..]
        invariant p == Pass(c, budget, was[..i], replies[..i])
        invariant items[..i] == p.items && calls == sent + p.calls && numRemovablePods == p.budget && !p.panicked
      {
        PassStep(c, budget, was, replies, i);
        ghost var before := items[..];
        assert items[i] == items[i..][0] == was[i];
        var po, sentNow;
        po, sentNow, numRemovablePods, panicked := VisitPod(c, numRemovablePods, items[i], replies[i]);
        items[i] := po;
        calls := calls + sentNow;
        p := Pass(c, budget, was[..i + 1], replies[..i + 1]);
        EditedAt(before, items[..], was, i, po);
        if panicked {
          PanicEndsPass(c, budget, was, replies, i + 1);
          assert items[..] == items[..i + 1] + items[i + 1..];
          return;
        }
      }
      assert was[..items.Length] == was && replies[..items.Length] == replies && items[..items.Length] == items[..];
      panicked := false;
    }

    /** One pass, with the answers in visiting order. The listed pods are edited in place. */
    method MaintainRunnerPods(runners: seq<GithubRunner>, items: array<KubePod>, replies: seq<Replies>, now: Time)
      returns (panicked: bool)
      requires |replies| == items.Length
      modifies this, items
      ensures config == old(config) && agent == old(agent) && lastCheckTime == now
      ensures var c := Ctx(now, old(lastCheckTime), config, runners);
              var p := Pass(c, Budget(config, CountUnlabelled(old(items[..]))), old(items[..]), replies);
              items[..] == p.items && calls == old(calls) + p.calls && panicked == p.panicked
    {
      hide Pass;
      var c := Ctx(now, lastCheckTime, config, runners);
      lastCheckTime := now;

      var numUnlabeledPods := CountUnlabelledPods(items);
      var numRemovablePods := Wrap32(Wrap32(config.maxRunnerPods - config.replicas) - numUnlabeledPods);
      assert numRemovablePods == Budget(config, CountUnlabelled(items[..]));
      panicked := VisitPods(c, numRemovablePods, items, replies);
    }
  }
}
