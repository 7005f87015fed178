/** The order in which the reconciler starts and ends the work for one pool, cut at every API call,
    with everything else that can happen to the pool in between. */
module Reconciler {
  import opened Base

  datatype PoolObject = PoolObject(deleting: bool, finalizer: bool, bound: bool)

  // The runner secret: whether it holds a token, and whether it is annotated with an expiry.
  datatype RunnerSecret = RunnerSecret(token: bool, annotated: bool)

  // The next action of the reconciliation under way.
  datatype Pc =
    | Idle
    | Validate
    | Credential
    | Secret
    | StartUpdater(continuation: bool)
    | Deploy
    | StartManager
    | Bind
    | StopManager
    | StopUpdater
    | RemoveFinalizer

  // seen is the object that the reconciliation under way has read. sawToken and deployed tell what
  // reconciliations have found and done for the present object.
  datatype Cluster = Cluster(
    pool: Option<PoolObject>,
    secret: Option<RunnerSecret>,
    updater: bool,
    manager: bool,
    pc: Pc,
    seen: PoolObject,
    sawToken: bool,
    deployed: bool
  )

  // An update of the pool goes through only when the object is still the one that was read.
  predicate Unchanged(c: Cluster) {
    c.pool == Some(c.seen)
  }

  /** The next action of a reconciliation, which fails when ok is false. A read error and a failed
      creation of the secret are both failures of the action Secret. */
  function Act(c: Cluster, ok: bool): Cluster {
    match c.pc
    case Idle =>
      if !ok || c.pool.None? then c
      else if !c.pool.value.deleting then c.(pc := Validate, seen := c.pool.value)
      else if !c.pool.value.finalizer then c
      else c.(pc := StopManager, seen := c.pool.value)
    case Validate => c.(pc := if ok then Credential else Idle)
    case Credential => c.(pc := if ok then Secret else Idle)
    case Secret =>
      if !ok then c.(pc := Idle)
      else if c.secret.Some? then
        c.(pc := StartUpdater(c.secret.value.annotated), sawToken := c.sawToken || (c.secret.value.annotated && c.secret.value.token))
      else c.(pc := StartUpdater(false), secret := Some(RunnerSecret(false, false)))
    case StartUpdater(continuation) =>
      if !ok && !c.updater then c.(pc := Idle)
      else c.(pc := if continuation then Deploy else Idle, updater := true)
    case Deploy => if ok then c.(pc := StartManager, deployed := true) else c.(pc := Idle)
    case StartManager => if ok then c.(pc := Bind, manager := true) else c.(pc := Idle)
    case Bind =>
      if ok && Unchanged(c) then c.(pc := Idle, pool := Some(c.seen.(bound := true))) else c.(pc := Idle)
    case StopManager => if ok then c.(pc := StopUpdater, manager := false) else c.(pc := Idle)
    case StopUpdater => if ok then c.(pc := RemoveFinalizer, updater := false) else c.(pc := Idle)
    case RemoveFinalizer =>
      if ok && Unchanged(c) then c.(pc := Idle, pool := Some(c.seen.(finalizer := false))) else c.(pc := Idle)
  }

  // Admission gives every new object the finalizer, and nobody else takes it away. The updater writes
  // token and annotation in one patch. A crash ends the processes with the controller.
  datatype Step =
    | Reconcile(ok: bool)
    | CreatePool
    | DeletePool
    | Vanish
    | PatchSecret
    | LoseSecret
    | Crash

  predicate Enabled(c: Cluster, s: Step) {
    match s
    case CreatePool => c.pool.None?
    case DeletePool => c.pool.Some?
    case Vanish => c.pool.Some? && c.pool.value.deleting && !c.pool.value.finalizer
    case PatchSecret => c.updater && c.secret.Some?
    case _ => true
  }

  function Next(c: Cluster, s: Step): Cluster
    requires Enabled(c, s)
  {
    match s
    case Reconcile(ok) => Act(c, ok)
    case CreatePool => c.(pool := Some(PoolObject(false, true, false)), sawToken := false, deployed := false)
    case DeletePool => c.(pool := Some(c.pool.value.(deleting := true)))
    case Vanish => c.(pool := None)
    case PatchSecret => c.(secret := Some(RunnerSecret(true, true)))
    case LoseSecret => c.(secret := None)
    case Crash => c.(pc := Idle, updater := false, manager := false)
  }

  predicate Ending(pc: Pc) {
    pc.StopManager? || pc.StopUpdater? || pc.RemoveFinalizer?
  }

  predicate Starting(pc: Pc) {
    !pc.Idle? && !Ending(pc)
  }

  /** What every reachable state keeps. */
  predicate Orderly(c: Cluster) {
    && (c.secret.Some? ==> c.secret.value.token == c.secret.value.annotated)
    && (c.pool.None? || !c.pool.value.finalizer ==> !c.updater && !c.manager && c.pc.Idle?)
    && (c.pool.Some? && !c.pool.value.finalizer ==> c.pool.value.deleting)
    && (Starting(c.pc) ==> c.seen.finalizer && !c.seen.deleting)
    && (Ending(c.pc) ==> c.seen.finalizer && c.seen.deleting && c.pool.Some? && c.pool.value.deleting)
    && (c.pc.StopUpdater? || c.pc.RemoveFinalizer? ==> !c.manager)
    && (c.pc.RemoveFinalizer? ==> !c.updater)
    && (c.pc == StartUpdater(true) || c.pc.Deploy? || c.pc.StartManager? || c.pc.Bind? ==> c.sawToken)
    && (c.pc.StartManager? || c.pc.Bind? ==> c.deployed)
    && (c.pc.Bind? ==> c.manager)
    && (c.deployed ==> c.sawToken)
    && (c.manager ==> c.deployed)
    && (!c.pc.Idle? ==> (c.seen.bound ==> c.deployed))
    && (c.pool.Some? && c.pool.value.bound ==> c.deployed)
  }

  predicate Init(c: Cluster) {
    c.pool.None? && c.secret.None? && !c.updater && !c.manager && c.pc.Idle? && !c.sawToken && !c.deployed
  }

  lemma EndingKeepsOrderly(c: Cluster, ok: bool)
    requires Orderly(c) && Ending(c.pc)
    ensures Orderly(Act(c, ok))
  {
  }

  lemma IssuingKeepsOrderly(c: Cluster, ok: bool)
    requires Orderly(c) && (c.pc.Secret? || c.pc.StartUpdater?)
    ensures Orderly(Act(c, ok))
  {
  }

  lemma BindingKeepsOrderly(c: Cluster, ok: bool)
    requires Orderly(c) && (c.pc.Deploy? || c.pc.StartManager? || c.pc.Bind?)
    ensures Orderly(Act(c, ok))
  {
  }

  /** Every step keeps the order, whether the reconciliation's own call or anything between two of them. */
  lemma NextKeepsOrderly(c: Cluster, s: Step)
    requires Orderly(c) && Enabled(c, s)
    ensures Orderly(Next(c, s))
  {
    if s.Reconcile? {
      if Ending(c.pc) {
        EndingKeepsOrderly(c, s.ok);
      } else if c.pc.Secret? || c.pc.StartUpdater? {
        IssuingKeepsOrderly(c, s.ok);
      } else if c.pc.Deploy? || c.pc.StartManager? || c.pc.Bind? {
        BindingKeepsOrderly(c, s.ok);
      }
    } else {
      hide Act;
    }
  }

  predicate Possible(c: Cluster, steps: seq<Step>)
    decreases |steps|, 0
  {
    steps == [] ||
    (var n := |steps| - 1;
     Possible(c, steps[..n]) && Enabled(After(c, steps[..n]), steps[n]))
  }

  function After(c: Cluster, steps: seq<Step>): Cluster
    requires Possible(c, steps)
    decreases |steps|, 1
  {
    if steps == [] then c
    else
      var n := |steps| - 1;
      Next(After(c, steps[..n]), steps[n])
  }

  lemma {:induction false} RunKeepsOrderly(c: Cluster, steps: seq<Step>)
    requires Orderly(c) && Possible(c, steps)
    ensures Orderly(After(c, steps))
  {
    if steps != [] {
      var n := |steps| - 1;
      RunKeepsOrderly(c, steps[..n]);
      NextKeepsOrderly(After(c, steps[..n]), steps[n]);
    }
  }

  /** In every run, with a failure or a crash at any call: a pool is bound only after a reconciliation
      found its secret holding a token with its expiry and then reconciled the deployment, a manager
      process runs only after that too, and the annotation never comes without the token. */
  lemma BoundMeansReady(c: Cluster, steps: seq<Step>)
    requires Init(c) && Possible(c, steps)
    ensures var v := After(c, steps);
            && ((v.pool.Some? && v.pool.value.bound) || v.manager ==> v.sawToken && v.deployed)
            && (v.secret.Some? && v.secret.value.annotated ==> v.secret.value.token)
  {
    RunKeepsOrderly(c, steps);
  }

  /** In every run, once the finalizer of a pool is gone neither process of that pool is alive. */
  lemma FinishedMeansStopped(c: Cluster, steps: seq<Step>)
    requires Init(c) && Possible(c, steps)
    ensures var v := After(c, steps);
            v.pool.None? || !v.pool.value.finalizer ==> !v.manager && !v.updater
  {
    RunKeepsOrderly(c, steps);
  }

  /** ... and no later reconciliation of that object starts one: until a new object is created, no
      continuation has a process. */
  lemma {:induction false} FinishedStartsNothing(c: Cluster, steps: seq<Step>)
    requires Orderly(c) && (c.pool.None? || !c.pool.value.finalizer) && Possible(c, steps)
    requires forall s :: s in steps ==> !s.CreatePool?
    ensures var v := After(c, steps);
            && (v.pool.None? || !v.pool.value.finalizer) && !v.manager && !v.updater && v.pc.Idle?
  {
    if steps != [] {
      var n := |steps| - 1;
      FinishedStartsNothing(c, steps[..n]);
      RunKeepsOrderly(c, steps[..n]);
    }
  }

  // The answers to the calls of one reconciliation.
  datatype Answers = Answers(
    get: bool, valid: bool, credential: bool, secret: bool, updater: bool,
    deployment: bool, manager: bool, status: bool, managerStop: bool, updaterStop: bool, update: bool
  )

  function AnswerAt(pc: Pc, a: Answers): bool {
    match pc
    case Idle => a.get
    case Validate => a.valid
    case Credential => a.credential
    case Secret => a.secret
    case StartUpdater(_) => a.updater
    case Deploy => a.deployment
    case StartManager => a.manager
    case Bind => a.status
    case StopManager => a.managerStop
    case StopUpdater => a.updaterStop
    case RemoveFinalizer => a.update
  }

  function ActsLeft(pc: Pc): nat {
    match pc
    case Idle => 0
    case Validate => 7
    case Credential => 6
    case Secret => 5
    case StartUpdater(_) => 4
    case Deploy => 3
    case StartManager => 2
    case Bind => 1
    case StopManager => 3
    case StopUpdater => 2
    case RemoveFinalizer => 1
  }

  lemma ActProgresses(c: Cluster, ok: bool)
    requires !c.pc.Idle?
    ensures ActsLeft(Act(c, ok).pc) < ActsLeft(c.pc)
  {
  }

  // A reconciliation under way, to its end.
  function Finish(c: Cluster, a: Answers): Cluster
    decreases ActsLeft(c.pc)
  {
    if c.pc.Idle? then c
    else
      hide Act, ActsLeft, AnswerAt;
      ActProgresses(c, AnswerAt(c.pc, a));
      Finish(Act(c, AnswerAt(c.pc, a)), a)
  }

  lemma {:induction false} RestKeepsOrderly(c: Cluster, a: Answers)
    requires Orderly(c)
    ensures Orderly(Finish(c, a)) && Finish(c, a).pc.Idle?
    decreases ActsLeft(c.pc)
  {
    hide Orderly;
    if !c.pc.Idle? {
      NextKeepsOrderly(c, Reconcile(AnswerAt(c.pc, a)));
      RestKeepsOrderly(Act(c, AnswerAt(c.pc, a)), a);
    }
  }

  lemma FinishKeepsOrderly(c: Cluster, a: Answers)
    requires Orderly(c) && c.pc.Idle?
    ensures var v := Finish(Act(c, a.get), a); Orderly(v) && v.pc.Idle?
  {
    NextKeepsOrderly(c, Reconcile(a.get));
    RestKeepsOrderly(Act(c, a.get), a);
  }

  // The pool's secret already shows an expiry.
  predicate Issued(c: Cluster) {
    c.secret.Some? && c.secret.value.annotated
  }

  // Deployment, manager or status goes wrong.
  predicate ContinueFails(c: Cluster, a: Answers) {
    !a.deployment || !a.manager || !a.status || !Unchanged(c)
  }

  // The updater cannot be started, or something after it goes wrong.
  predicate StartProcessFails(c: Cluster, a: Answers, isContinuation: bool) {
    (!a.updater && !c.updater) || (isContinuation && ContinueFails(c, a))
  }

  predicate StartFails(c: Cluster, a: Answers) {
    !a.valid || !a.credential || !a.secret || StartProcessFails(c, a, Issued(c))
  }

  predicate EndFails(a: Answers) {
    !a.managerStop || !a.updaterStop || !a.update
  }

  lemma OneMore(c: Cluster, steps: seq<Step>, s: Step) returns (more: seq<Step>)
    requires Possible(c, steps) && Enabled(After(c, steps), s)
    ensures more == steps + [s] && Possible(c, more) && After(c, more) == Next(After(c, steps), s)
  {
    more := steps + [s];
    assert more[..|steps|] == steps;
  }

  // k successful calls of the reconciliation.
  function Calls(c: Cluster, k: nat): Cluster {
    if k == 0 then c else Act(Calls(c, k - 1), true)
  }

  lemma {:induction false} RunCalls(c: Cluster, steps: seq<Step>, k: nat) returns (more: seq<Step>)
    requires Possible(c, steps)
    ensures steps <= more && Possible(c, more) && After(c, more) == Calls(After(c, steps), k)
  {
    hide Act;
    if k == 0 {
      more := steps;
    } else {
      more := RunCalls(c, steps, k - 1);
      more := OneMore(c, more, Reconcile(true));
    }
  }

  const NOBODY := PoolObject(false, false, false)
  const NEW_POOL := PoolObject(false, true, false)
  const START := Cluster(None, None, false, false, Idle, NOBODY, false, false)
  // The pool has its empty secret and its updater; then the updater has stored the first token.
  const WAITING := Cluster(Some(NEW_POOL), Some(RunnerSecret(false, false)), true, false, Idle, NEW_POOL, false, false)
  const SERVED := Cluster(Some(NEW_POOL), Some(RunnerSecret(true, true)), true, false, Idle, NEW_POOL, false, false)
  const BOUND := Cluster(Some(NEW_POOL.(bound := true)), Some(RunnerSecret(true, true)), true, true, Idle, NEW_POOL, true, true)

  lemma FirstCalls()
    ensures Calls(START.(pool := Some(NEW_POOL)), 5) == WAITING
  {
    var c := START.(pool := Some(NEW_POOL));
    assert Calls(c, 0) == c;
    assert Calls(c, 1) == c.(pc := Validate, seen := NEW_POOL);
    assert Calls(c, 2).pc.Credential?;
    assert Calls(c, 3).pc.Secret?;
    assert Calls(c, 4).pc == StartUpdater(false);
  }

  lemma NextCalls()
    ensures Calls(SERVED, 8) == BOUND
  {
    assert Calls(SERVED, 0) == SERVED;
    assert Calls(SERVED, 1) == SERVED.(pc := Validate);
    assert Calls(SERVED, 2) == SERVED.(pc := Credential);
    assert Calls(SERVED, 3) == SERVED.(pc := Secret);
    assert Calls(SERVED, 4) == SERVED.(pc := StartUpdater(true), sawToken := true);
    assert Calls(SERVED, 5) == SERVED.(pc := Deploy, sawToken := true);
    assert Calls(SERVED, 6) == SERVED.(pc := StartManager, sawToken := true, deployed := true);
    assert Calls(SERVED, 7) == SERVED.(pc := Bind, sawToken := true, deployed := true, manager := true);
  }

  lemma LastCalls()
    ensures Calls(BOUND.(pool := Some(PoolObject(true, true, true))), 4) ==
              BOUND.(pool := Some(PoolObject(true, false, true)), seen := PoolObject(true, true, true),
                     updater := false, manager := false)
  {
    var c := BOUND.(pool := Some(PoolObject(true, true, true)));
    var seen := PoolObject(true, true, true);
    assert Calls(c, 0) == c;
    assert Calls(c, 1) == c.(pc := StopManager, seen := seen);
    assert Calls(c, 2) == c.(pc := StopUpdater, seen := seen, manager := false);
    assert Calls(c, 3) == c.(pc := RemoveFinalizer, seen := seen, manager := false, updater := false);
  }

  lemma StartOfRun() returns (steps: seq<Step>)
    ensures steps == [] && Possible(START, steps) && After(START, steps) == START
  {
    steps := [];
  }

  /** A whole life: a pool is created, gets its secret and its updater, waits for the token, is deployed,
      managed and bound; it is deleted, stopped, and vanishes. */
  lemma WholeLife() returns (bound: seq<Step>, gone: seq<Step>)
    ensures Init(START) && Possible(START, bound) && After(START, bound) == BOUND
    ensures bound <= gone && Possible(START, gone)
    ensures var v := After(START, gone); v.pool == None && !v.manager && !v.updater
  {
    hide Possible, After, Act, Calls;
    var s: seq<Step> := StartOfRun();
    s := OneMore(START, s, CreatePool);
    s := RunCalls(START, s, 5);
    FirstCalls();
    s := OneMore(START, s, PatchSecret);
    s := RunCalls(START, s, 8);
    NextCalls();
    bound := s;
    s := OneMore(START, s, DeletePool);
    s := RunCalls(START, s, 4);
    LastCalls();
    gone := OneMore(START, s, Vanish);
  }

  /** The controller's side: the straight-line Reconcile performs the actions of the machine in its order. */
  class Controller {
    var c: Cluster

    constructor ()
      ensures Init(c) && Orderly(c)
    {
      c := Cluster(None, None, false, false, Idle, PoolObject(false, false, false), false, false);
    }

    /** The branch for a pool that is being deleted. */
    method End(a: Answers) returns (err: bool)
      requires c.pc.Idle? && a.get && c.pool.Some? && c.pool.value.deleting && c.pool.value.finalizer
      modifies this
      ensures c == Finish(Act(old(c), a.get), a)
      ensures err <==> EndFails(a)
      ensures c.pc.Idle? && c.secret == old(c).secret
      ensures c.manager == (old(c).manager && !a.managerStop)
      ensures c.updater == (old(c).updater && !(a.managerStop && a.updaterStop))
      ensures !err ==> !c.manager && !c.updater && c.pool == Some(old(c).pool.value.(finalizer := false))
      ensures err ==> c.pool == old(c).pool
    {
      ghost var end := Finish(Act(c, a.get), a);
      c := c.(pc := StopManager, seen := c.pool.value);
      assert end == Finish(c, a);
      if !a.managerStop {
        c := c.(pc := Idle);
        assert end == Finish(c, a);
        return true;
      }
      c := c.(pc := StopUpdater, manager := false);
      assert end == Finish(c, a);
      if !a.updaterStop {
        c := c.(pc := Idle);
        assert end == Finish(c, a);
        return true;
      }
      c := c.(pc := RemoveFinalizer, updater := false);
      assert end == Finish(c, a);
      if !a.update {
        c := c.(pc := Idle);
        assert end == Finish(c, a);
        return true;
      }
      c := c.(pc := Idle, pool := Some(c.seen.(finalizer := false)));
      assert end == Finish(c, a);
      return false;
    }

    /** The rest of a reconciliation whose secret has been issued. */
    method Continue(a: Answers) returns (err: bool)
      requires c.pc.Deploy?
      modifies this
      ensures c == Finish(old(c), a)
      ensures err <==> ContinueFails(old(c), a)
      ensures c.secret == old(c).secret && c.updater == old(c).updater && c.pc.Idle?
      ensures c.deployed == (old(c).deployed || a.deployment)
      ensures c.manager == (old(c).manager || (a.deployment && a.manager))
      ensures !err ==> c.deployed && c.manager && c.pool == Some(old(c).seen.(bound := true))
      ensures err ==> c.pool == old(c).pool
    {
      ghost var end := Finish(c, a);
      if !a.deployment {
        c := c.(pc := Idle);
        assert end == Finish(c, a);
        return true;
      }
      c := c.(pc := StartManager, deployed := true);
      assert end == Finish(c, a);
      if !a.manager {
        c := c.(pc := Idle);
        assert end == Finish(c, a);
        return true;
      }
      c := c.(pc := Bind, manager := true);
      assert end == Finish(c, a);
      if !a.status || !Unchanged(c) {
        c := c.(pc := Idle);
        assert end == Finish(c, a);
        return true;
      }
      c := c.(pc := Idle, pool := Some(c.seen.(bound := true)));
      assert end == Finish(c, a);
      return false;
    }

    /** Starts the updater, unless one runs. */
    method StartUpdaterIfNone(a: Answers, isContinuation: bool) returns (err: bool)
      requires c.pc == StartUpdater(isContinuation)
      modifies this
      ensures c == Act(old(c), a.updater)
      ensures err <==> !a.updater && !old(c).updater
      ensures err ==> c == old(c).(pc := Idle)
      ensures !err ==> c == old(c).(pc := if isContinuation then Deploy else Idle, updater := true)
    {
      if !a.updater && !c.updater {
        c := c.(pc := Idle);
        return true;
      }
      c := c.(updater := true, pc := if isContinuation then Deploy else Idle);
      return false;
    }

    /** The rest of a reconciliation that has found or created the secret. */
    method StartProcess(a: Answers, isContinuation: bool) returns (err: bool)
      requires c.pc == StartUpdater(isContinuation)
      modifies this
      ensures c == Finish(old(c), a)
      ensures err <==> StartProcessFails(old(c), a, isContinuation)
      ensures c.secret == old(c).secret && c.pc.Idle?
      ensures !err ==> c.updater
      ensures !err && isContinuation ==> c.deployed && c.manager && c.pool == Some(old(c).seen.(bound := true))
      ensures err || !isContinuation ==> c.pool == old(c).pool
    {
      ghost var end := Finish(c, a);
      err := StartUpdaterIfNone(a, isContinuation);
      assert end == Finish(c, a);
      if err || !isContinuation {
        return;
      }
      err := Continue(a);
    }

    /** Finds or creates the runner secret. */
    method ReconcileSecret(a: Answers) returns (isContinuation: bool, err: bool)
      requires c.pc.Secret?
      modifies this
      ensures c == Act(old(c), a.secret)
      ensures err <==> !a.secret
      ensures !err ==> c.pc == StartUpdater(isContinuation) && isContinuation == Issued(old(c))
      ensures c.secret == (if !err && old(c).secret.None? then Some(RunnerSecret(false, false)) else old(c).secret)
      ensures c.pool == old(c).pool && c.seen == old(c).seen && c.updater == old(c).updater && c.manager == old(c).manager
    {
      if !a.secret {
        c := c.(pc := Idle);
        return false, true;
      }
      isContinuation := false;
      if c.secret.Some? {
        isContinuation := c.secret.value.annotated;
        c := c.(sawToken := c.sawToken || (isContinuation && c.secret.value.token));
      } else {
        c := c.(secret := Some(RunnerSecret(false, false)));
      }
      c := c.(pc := StartUpdater(isContinuation));
      return isContinuation, false;
    }

    /** The rest of a reconciliation from the secret on. */
    method StartIssued(a: Answers) returns (err: bool)
      requires c.pc.Secret?
      modifies this
      ensures c == Finish(old(c), a)
      ensures err <==> !a.secret || StartProcessFails(old(c), a, Issued(old(c)))
      ensures c.pc.Idle?
      ensures !err ==> c.updater && c.secret.Some?
      ensures !err && Issued(old(c)) ==> c.deployed && c.manager && c.pool == Some(old(c).seen.(bound := true))
      ensures err || !Issued(old(c)) ==> c.pool == old(c).pool
    {
      ghost var end := Finish(c, a);
      var isContinuation;
      isContinuation, err := ReconcileSecret(a);
      assert end == Finish(c, a);
      if err {
        return;
      }

      err := StartProcess(a, isContinuation);
    }

    /** The branch for a live pool. */
    method Start(a: Answers) returns (err: bool)
      requires c.pc.Idle? && a.get && c.pool.Some? && !c.pool.value.deleting
      modifies this
      ensures c == Finish(Act(old(c), a.get), a)
      ensures err <==> StartFails(old(c).(seen := old(c).pool.value), a)
      ensures c.pc.Idle?
      ensures !err ==> c.updater && c.secret.Some?
      ensures !err && Issued(old(c)) ==> c.deployed && c.manager && c.pool == Some(old(c).pool.value.(bound := true))
      ensures err || !Issued(old(c)) ==> c.pool == old(c).pool
    {
      ghost var end := Finish(Act(c, a.get), a);
      c := c.(pc := Validate, seen := c.pool.value);
      assert end == Finish(c, a);
      if !a.valid {
        c := c.(pc := Idle);
        assert end == Finish(c, a);
        return true;
      }
      c := c.(pc := Credential);
      assert end == Finish(c, a);
      if !a.credential {
        c := c.(pc := Idle);
        assert end == Finish(c, a);
        return true;
      }
      c := c.(pc := Secret);
      assert end == Finish(c, a);
      err := StartIssued(a);
    }

    method Reconcile(a: Answers) returns (err: bool)
      requires c.pc.Idle? && Orderly(c)
      modifies this
      ensures c == Finish(Act(old(c), a.get), a)
      ensures c.pc.Idle? && Orderly(c)
      ensures err <==>
                || !a.get
                || (old(c).pool.Some? && old(c).pool.value.deleting && old(c).pool.value.finalizer && EndFails(a))
                || (old(c).pool.Some? && !old(c).pool.value.deleting
                    && StartFails(old(c).(seen := old(c).pool.value), a))
      ensures !err && old(c).pool.Some? && !old(c).pool.value.deleting ==>
                && c.updater && c.secret.Some?
                && (if Issued(old(c)) then c.deployed && c.manager && c.pool == Some(old(c).pool.value.(bound := true))
                    else c.pool == old(c).pool)
      ensures !err && old(c).pool.Some? && old(c).pool.value.deleting && old(c).pool.value.finalizer ==>
                !c.manager && !c.updater && c.pool == Some(old(c).pool.value.(finalizer := false))
      ensures err ==> c.pool == old(c).pool
    {
      ghost var end := Finish(Act(c, a.get), a);
      FinishKeepsOrderly(c, a);
      if !a.get {
        return true;
      }
      if c.pool.None? {
        return false;
      }
      var rp := c.pool.value;
      if rp.deleting {
        if !rp.finalizer {
          return false;
        }
        err := End(a);
      } else {
        err := Start(a);
      }
    }
  }
}
